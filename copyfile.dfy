/**
 * The copy-file step: validation of the `copy` block into a CopyFileParams record.
 * As written the step never reaches shutil.copyfile: the log line before it reads
 * an attribute the record does not have.
 */
module CopyFile {
  import opened Wrappers
  import opened Context
  import opened Validation
  import opened Effects

  /** The fields of CopyFileParams in declaration order: the accepted keys. */
  const Fields: seq<string> := ["source", "destination", "follow_symlinks"]

  /** The attribute the log line reads, a misspelling of follow_symlinks. */
  const LoggedAttribute: string := "follow_sylinks"

  /** CopyFileParams once validated. */
  datatype Params = Params(source: string, destination: string, followSymlinks: bool)

  /** The straight-line checks after the whitelist: required keys, field types, the source's existence. */
  function CheckFields(b: Block, pathExists: string -> bool): Result<Params, Error>
  {
    if "source" !in Keys(b) then Err(MissingRequired("source"))
    else if "destination" !in Keys(b) then Err(MissingRequired("destination"))
    else
      var source := Lookup(b, "source").value;
      var destination := Lookup(b, "destination").value;
      var followSymlinks := Get(b, "follow_symlinks", VBool(true));
      if !source.VStr? then Err(TypeMismatch("source"))
      else if !destination.VStr? then Err(TypeMismatch("destination"))
      else if !followSymlinks.VBool? then Err(TypeMismatch("follow_symlinks"))
      else if !pathExists(source.s) then Err(NotFound)
      else Ok(Params(source.s, destination.s, followSymlinks.b))
  }

  /** The checks of run_step after the context key, in the order the step makes them. */
  function Validate(b: Block, pathExists: string -> bool): Result<Params, Error>
  {
    match FirstUnexpected(Keys(b), Fields)
    case Some(k) => Err(UnexpectedKey(k))
    case None => CheckFields(b, pathExists)
  }

  /** run_step as written: a validated record still fails at the log line, before the copy. */
  function Run(ctx: Option<Block>, pathExists: string -> bool): Result<Primitive, Error>
  {
    match ctx
    case None => Err(MissingContextKey)
    case Some(b) =>
      match Validate(b, pathExists)
      case Err(e) => Err(e)
      case Ok(_) => Err(AttributeMissing(LoggedAttribute))
  }

  /** run_step step by step: the whitelist loop, then the straight-line checks. */
  method RunStep(ctx: Option<Block>, pathExists: string -> bool) returns (r: Result<Primitive, Error>)
    ensures ctx.None? ==> r == Err(MissingContextKey)
    ensures r == Run(ctx, pathExists)
  {
    if ctx.None? {
      return Err(MissingContextKey);
    }
    var unexpected := FindUnexpected(ctx.value, Fields);
    if unexpected.Some? {
      return Err(UnexpectedKey(unexpected.value));
    }
    var checked := CheckFields(ctx.value, pathExists);
    if checked.Err? {
      return Err(checked.error);
    }
    r := Err(AttributeMissing(LoggedAttribute));
  }

  /** A key outside the fields, preceded only by fields, is reported whatever else the block lacks. */
  lemma WhitelistFirst(b: Block, pathExists: string -> bool, i: nat)
    requires i < |b| && b[i].0 !in Fields
    requires forall j :: 0 <= j < i ==> b[j].0 in Fields
    ensures Validate(b, pathExists) == Err(UnexpectedKey(b[i].0))
  {
    FirstUnexpectedAt(Keys(b), Fields, i);
  }

  /** Once the whitelist passes, a missing source is reported before a missing destination. */
  lemma RequiredInOrder(b: Block, pathExists: string -> bool)
    requires OnlyFields(b, Fields)
    ensures "source" !in Keys(b) ==> Validate(b, pathExists) == Err(MissingRequired("source"))
    ensures "source" in Keys(b) && "destination" !in Keys(b) ==>
              Validate(b, pathExists) == Err(MissingRequired("destination"))
  {
  }

  /** A validated record carries the block's values, and follow_symlinks = true when the key is absent. */
  lemma ValidatedRecord(b: Block, pathExists: string -> bool, p: Params)
    requires Validate(b, pathExists) == Ok(p)
    ensures OnlyFields(b, Fields)
    ensures Lookup(b, "source") == Some(VStr(p.source))
    ensures Lookup(b, "destination") == Some(VStr(p.destination))
    ensures "follow_symlinks" in Keys(b) ==> Lookup(b, "follow_symlinks") == Some(VBool(p.followSymlinks))
    ensures "follow_symlinks" !in Keys(b) ==> p.followSymlinks
    ensures pathExists(p.source)
  {
  }

  /** A block of string paths and a bool follow_symlinks validates, unless the source does not exist. */
  lemma AcceptedBlock(b: Block, pathExists: string -> bool, src: string, dst: string, followSymlinks: bool)
    requires OnlyFields(b, Fields)
    requires Lookup(b, "source") == Some(VStr(src)) && Lookup(b, "destination") == Some(VStr(dst))
    requires Get(b, "follow_symlinks", VBool(true)) == VBool(followSymlinks)
    ensures Validate(b, pathExists) == if pathExists(src) then Ok(Params(src, dst, followSymlinks)) else Err(NotFound)
    ensures pathExists(src) ==> RunIntended(Some(b), pathExists) == Ok(CopyFileCall(src, dst, followSymlinks))
  {
  }

  /** With the whitelist and required keys satisfied, types are checked in the order source, destination, follow_symlinks. */
  lemma TypeCheckOrder(b: Block, pathExists: string -> bool)
    requires OnlyFields(b, Fields) && "source" in Keys(b) && "destination" in Keys(b)
    ensures !Lookup(b, "source").value.VStr? ==> Validate(b, pathExists) == Err(TypeMismatch("source"))
    ensures Lookup(b, "source").value.VStr? && !Lookup(b, "destination").value.VStr? ==>
              Validate(b, pathExists) == Err(TypeMismatch("destination"))
    ensures Lookup(b, "source").value.VStr? && Lookup(b, "destination").value.VStr? &&
            !Get(b, "follow_symlinks", VBool(true)).VBool? ==>
              Validate(b, pathExists) == Err(TypeMismatch("follow_symlinks"))
  {
  }

  /** Every error but NotFound is decided before the filesystem is consulted. */
  lemma FilesystemConsultedLast(b: Block, exists1: string -> bool, exists2: string -> bool)
    requires Validate(b, exists1).Err? && Validate(b, exists1).error != NotFound
    ensures Validate(b, exists2) == Validate(b, exists1)
  {
  }

  /** NotFound comes only from a block that passes every type check and names a missing source. */
  lemma NotFoundAfterTypeChecks(b: Block, pathExists: string -> bool)
    requires Validate(b, pathExists) == Err(NotFound)
    ensures Validate(b, _ => true).Ok?
    ensures !pathExists(Validate(b, _ => true).value.source)
  {
  }

  /** As written the copy is never invoked: a block that passes validation fails at the log line. */
  lemma CopyNeverReached(ctx: Option<Block>, pathExists: string -> bool)
    ensures Run(ctx, pathExists).Err?
    ensures Run(ctx, pathExists) == Err(AttributeMissing(LoggedAttribute)) <==>
              ctx.Some? && Validate(ctx.value, pathExists).Ok?
  {
  }

  /** A well-formed request for an existing file, which the step as written still rejects. */
  lemma ValidCopyFails(b: Block)
    requires b == [("source", VStr("a.txt")), ("destination", VStr("b.txt"))]
    ensures Validate(b, _ => true) == Ok(Params("a.txt", "b.txt", true))
    ensures Run(Some(b), _ => true) == Err(AttributeMissing(LoggedAttribute))
  {
    assert Keys(b) == ["source", "destination"];
  }

  /** run_step as evidently intended: the log line reads follow_symlinks and the copy follows. */
  function RunIntended(ctx: Option<Block>, pathExists: string -> bool): Result<Primitive, Error>
  {
    match ctx
    case None => Err(MissingContextKey)
    case Some(b) =>
      match Validate(b, pathExists)
      case Err(e) => Err(e)
      case Ok(p) => Ok(CopyFileCall(p.source, p.destination, p.followSymlinks))
  }

  /** As intended, the copy is invoked exactly on success, with the validated arguments; errors are unchanged. */
  lemma IntendedCopyInvoked(ctx: Option<Block>, pathExists: string -> bool)
    ensures RunIntended(ctx, pathExists).Ok? <==> ctx.Some? && Validate(ctx.value, pathExists).Ok?
    ensures RunIntended(ctx, pathExists).Ok? ==>
              var p := Validate(ctx.value, pathExists).value;
              RunIntended(ctx, pathExists) == Ok(CopyFileCall(p.source, p.destination, p.followSymlinks))
    ensures RunIntended(ctx, pathExists).Err? ==> RunIntended(ctx, pathExists) == Run(ctx, pathExists)
  {
  }

  /** A validation error is the step's error, as written and as intended; nothing is invoked then. */
  lemma InvokedOnlyOnSuccess(ctx: Option<Block>, pathExists: string -> bool)
    ensures ctx.Some? && Validate(ctx.value, pathExists).Err? ==>
              Run(ctx, pathExists) == Err(Validate(ctx.value, pathExists).error)
    ensures ctx.Some? && Validate(ctx.value, pathExists).Err? ==>
              RunIntended(ctx, pathExists) == Err(Validate(ctx.value, pathExists).error)
    ensures ctx.None? ==> Run(ctx, pathExists) == RunIntended(ctx, pathExists) == Err(MissingContextKey)
  {
  }
}
