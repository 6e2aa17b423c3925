/**
 * The remove-tree step: validation of the `remove` block into a RemoveTreeParams
 * record, the two path pre-checks, then one call of shutil.rmtree.
 */
module RemoveTree {
  import opened Wrappers
  import opened Context
  import opened Validation
  import opened Effects

  /** The fields of RemoveTreeParams in declaration order: the accepted keys. */
  const Fields: seq<string> := ["path", "ignore_errors"]

  /** RemoveTreeParams once validated. */
  datatype Params = Params(path: string, ignoreErrors: bool)

  /** The straight-line checks after the whitelist: the required path, field types, the path pre-checks. */
  function CheckFields(b: Block, pathExists: string -> bool, isDir: string -> bool): Result<Params, Error>
  {
    if "path" !in Keys(b) then Err(MissingRequired("path"))
    else
      var path := Lookup(b, "path").value;
      var ignoreErrors := Get(b, "ignore_errors", VBool(false));
      if !path.VStr? then Err(TypeMismatch("path"))
      else if !ignoreErrors.VBool? then Err(TypeMismatch("ignore_errors"))
      else if !pathExists(path.s) then Err(NotADirectory)
      else if !isDir(path.s) then Err(NotADirectory)
      else Ok(Params(path.s, ignoreErrors.b))
  }

  /** The checks of run_step after the context key, in the order the step makes them. */
  function Validate(b: Block, pathExists: string -> bool, isDir: string -> bool): Result<Params, Error>
  {
    match FirstUnexpected(Keys(b), Fields)
    case Some(k) => Err(UnexpectedKey(k))
    case None => CheckFields(b, pathExists, isDir)
  }

  /** run_step: the context key, the validation, then the removal. */
  function Run(ctx: Option<Block>, pathExists: string -> bool, isDir: string -> bool): Result<Primitive, Error>
  {
    match ctx
    case None => Err(MissingContextKey)
    case Some(b) =>
      match Validate(b, pathExists, isDir)
      case Err(e) => Err(e)
      case Ok(p) => Ok(RmTreeCall(p.path, p.ignoreErrors))
  }

  /** run_step step by step: the whitelist loop, then the straight-line checks. */
  method RunStep(ctx: Option<Block>, pathExists: string -> bool, isDir: string -> bool) returns (r: Result<Primitive, Error>)
    ensures ctx.None? ==> r == Err(MissingContextKey)
    ensures r == Run(ctx, pathExists, isDir)
  {
    if ctx.None? {
      return Err(MissingContextKey);
    }
    var unexpected := FindUnexpected(ctx.value, Fields);
    if unexpected.Some? {
      return Err(UnexpectedKey(unexpected.value));
    }
    var checked := CheckFields(ctx.value, pathExists, isDir);
    if checked.Err? {
      return Err(checked.error);
    }
    r := Ok(RmTreeCall(checked.value.path, checked.value.ignoreErrors));
  }

  /** A key outside the fields, preceded only by fields, is reported whatever else the block lacks. */
  lemma WhitelistFirst(b: Block, pathExists: string -> bool, isDir: string -> bool, i: nat)
    requires i < |b| && b[i].0 !in Fields
    requires forall j :: 0 <= j < i ==> b[j].0 in Fields
    ensures Validate(b, pathExists, isDir) == Err(UnexpectedKey(b[i].0))
  {
    FirstUnexpectedAt(Keys(b), Fields, i);
  }

  /** A missing path is reported exactly when the whitelist passes and the path key is absent. */
  lemma MissingPathAfterWhitelist(b: Block, pathExists: string -> bool, isDir: string -> bool)
    ensures Validate(b, pathExists, isDir) == Err(MissingRequired("path")) <==> OnlyFields(b, Fields) && "path" !in Keys(b)
  {
  }

  /** A validated record carries the block's values, and ignore_errors = false when the key is absent. */
  lemma ValidatedRecord(b: Block, pathExists: string -> bool, isDir: string -> bool, p: Params)
    requires Validate(b, pathExists, isDir) == Ok(p)
    ensures OnlyFields(b, Fields)
    ensures Lookup(b, "path") == Some(VStr(p.path))
    ensures "ignore_errors" in Keys(b) ==> Lookup(b, "ignore_errors") == Some(VBool(p.ignoreErrors))
    ensures "ignore_errors" !in Keys(b) ==> !p.ignoreErrors
    ensures pathExists(p.path) && isDir(p.path)
  {
  }

  /** With the whitelist and the path key satisfied, types are checked in the order path, ignore_errors. */
  lemma TypeCheckOrder(b: Block, pathExists: string -> bool, isDir: string -> bool)
    requires OnlyFields(b, Fields) && "path" in Keys(b)
    ensures !Lookup(b, "path").value.VStr? ==> Validate(b, pathExists, isDir) == Err(TypeMismatch("path"))
    ensures Lookup(b, "path").value.VStr? && !Get(b, "ignore_errors", VBool(false)).VBool? ==>
              Validate(b, pathExists, isDir) == Err(TypeMismatch("ignore_errors"))
  {
  }

  /** After the type checks, a missing path and a path that is not a directory both give NotADirectory. */
  lemma PathChecks(b: Block, pathExists: string -> bool, isDir: string -> bool, path: string)
    requires OnlyFields(b, Fields) && Lookup(b, "path") == Some(VStr(path))
    requires Get(b, "ignore_errors", VBool(false)).VBool?
    ensures Validate(b, pathExists, isDir) ==
              if pathExists(path) && isDir(path)
              then Ok(Params(path, Get(b, "ignore_errors", VBool(false)).b))
              else Err(NotADirectory)
  {
  }

  /** Every error but NotADirectory is decided before the filesystem is consulted. */
  lemma FilesystemConsultedLast(b: Block, exists1: string -> bool, isDir1: string -> bool,
                                 exists2: string -> bool, isDir2: string -> bool)
    requires Validate(b, exists1, isDir1).Err? && Validate(b, exists1, isDir1).error != NotADirectory
    ensures Validate(b, exists2, isDir2) == Validate(b, exists1, isDir1)
  {
  }

  /** The removal is invoked exactly when validation succeeds, with the validated path and ignore_errors. */
  lemma InvokedOnlyOnSuccess(ctx: Option<Block>, pathExists: string -> bool, isDir: string -> bool)
    ensures Run(ctx, pathExists, isDir).Ok? <==> ctx.Some? && Validate(ctx.value, pathExists, isDir).Ok?
    ensures Run(ctx, pathExists, isDir).Ok? ==>
              var p := Validate(ctx.value, pathExists, isDir).value;
              Run(ctx, pathExists, isDir) == Ok(RmTreeCall(p.path, p.ignoreErrors))
    ensures ctx.Some? && Validate(ctx.value, pathExists, isDir).Err? ==>
              Run(ctx, pathExists, isDir) == Err(Validate(ctx.value, pathExists, isDir).error)
  {
  }
}
