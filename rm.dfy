/**
 * The remove-file step: validation of the `remove` block into a RemoveParams
 * record, then one call of os.unlink. The record is built from the block's keys
 * by positional unpacking, so its path is the key "path" itself.
 */
module Remove {
  import opened Wrappers
  import opened Context
  import opened Validation
  import opened Effects

  /** The fields of RemoveParams: `path` only, so ignore_errors is not accepted. */
  const Fields: seq<string> := ["path"]

  /** RemoveParams once validated. */
  datatype Params = Params(path: string)

  /** `RemoveParams(*args)`: the record takes exactly one positional argument. */
  function Positional(args: seq<string>): Result<Value, Error>
  {
    if |args| == 1 then Ok(VStr(args[0])) else Err(ArgumentCount(|args|))
  }

  /** The straight-line checks after the whitelist: the required path, the construction from the keys, the type check. */
  function CheckFields(b: Block): Result<Params, Error>
  {
    if "path" !in Keys(b) then Err(MissingRequired("path"))
    else
      match Positional(Keys(b))
      case Err(e) => Err(e)
      case Ok(path) => if !path.VStr? then Err(TypeMismatch("path")) else Ok(Params(path.s))
  }

  /** The checks of run_step after the context key, in the order the step makes them. */
  function Validate(b: Block): Result<Params, Error>
  {
    match FirstUnexpected(Keys(b), Fields)
    case Some(k) => Err(UnexpectedKey(k))
    case None => CheckFields(b)
  }

  /** run_step: the context key, the validation, then the unlink, with no pre-check on the path. */
  function Run(ctx: Option<Block>): Result<Primitive, Error>
  {
    match ctx
    case None => Err(MissingContextKey)
    case Some(b) =>
      match Validate(b)
      case Err(e) => Err(e)
      case Ok(p) => Ok(UnlinkCall(p.path))
  }

  /** run_step step by step: the whitelist loop, then the straight-line checks. */
  method RunStep(ctx: Option<Block>) returns (r: Result<Primitive, Error>)
    ensures ctx.None? ==> r == Err(MissingContextKey)
    ensures r == Run(ctx)
  {
    if ctx.None? {
      return Err(MissingContextKey);
    }
    var unexpected := FindUnexpected(ctx.value, Fields);
    if unexpected.Some? {
      return Err(UnexpectedKey(unexpected.value));
    }
    var checked := CheckFields(ctx.value);
    if checked.Err? {
      return Err(checked.error);
    }
    r := Ok(UnlinkCall(checked.value.path));
  }

  /** A key other than path, preceded only by path, is reported whatever else the block lacks. */
  lemma WhitelistFirst(b: Block, i: nat)
    requires i < |b| && b[i].0 !in Fields
    requires forall j :: 0 <= j < i ==> b[j].0 in Fields
    ensures Validate(b) == Err(UnexpectedKey(b[i].0))
  {
    FirstUnexpectedAt(Keys(b), Fields, i);
  }

  /** A block holding ignore_errors is always rejected as an unexpected key. */
  lemma IgnoreErrorsRejected(b: Block)
    requires "ignore_errors" in Keys(b)
    ensures Validate(b).Err? && Validate(b).error.UnexpectedKey?
  {
  }

  /** A missing path is reported exactly when the whitelist passes and the path key is absent. */
  lemma MissingPathAfterWhitelist(b: Block)
    ensures Validate(b) == Err(MissingRequired("path")) <==> OnlyFields(b, Fields) && "path" !in Keys(b)
  {
  }

  /** A dict whose keys are all "path" and which holds "path" has that one key. */
  lemma {:induction false} OnlyKeyIsPath(b: Block)
    requires OnlyFields(b, Fields) && "path" in Keys(b)
    ensures Keys(b) == ["path"]
  {
    assert |b| > 0;
    forall i | 0 <= i < |b| ensures Keys(b)[i] == "path" && i == 0 {
      assert Keys(b)[0] in Keys(b) && Keys(b)[i] in Keys(b);
      assert b[0].0 == "path" == b[i].0;
    }
    assert Keys(b)[|b| - 1] == "path" && |b| - 1 == 0;
  }

  /** Every block that passes the checks unlinks the literal "path": the type check never fails and the supplied value is unused. */
  lemma UnlinksLiteralPath(b: Block)
    ensures Run(Some(b)).Ok? <==> OnlyFields(b, Fields) && "path" in Keys(b)
    ensures Run(Some(b)).Ok? ==> Run(Some(b)) == Ok(UnlinkCall("path"))
    ensures Validate(b) != Err(TypeMismatch("path"))
  {
    if OnlyFields(b, Fields) && "path" in Keys(b) {
      OnlyKeyIsPath(b);
    }
  }

  /** A request to remove /tmp/a.txt unlinks "path" instead. */
  lemma SuppliedPathIgnored(b: Block)
    requires b == [("path", VStr("/tmp/a.txt"))]
    ensures Run(Some(b)) == Ok(UnlinkCall("path"))
  {
    assert Keys(b) == ["path"];
  }

  /** The validation as evidently intended, `RemoveParams(**block)`: the path is the supplied value. */
  function ValidateIntended(b: Block): Result<Params, Error>
  {
    match FirstUnexpected(Keys(b), Fields)
    case Some(k) => Err(UnexpectedKey(k))
    case None =>
      if "path" !in Keys(b) then Err(MissingRequired("path"))
      else
        var path := Lookup(b, "path").value;
        if !path.VStr? then Err(TypeMismatch("path")) else Ok(Params(path.s))
  }

  /** run_step with the intended construction of the record. */
  function RunIntended(ctx: Option<Block>): Result<Primitive, Error>
  {
    match ctx
    case None => Err(MissingContextKey)
    case Some(b) =>
      match ValidateIntended(b)
      case Err(e) => Err(e)
      case Ok(p) => Ok(UnlinkCall(p.path))
  }

  /** As intended, the supplied string path is unlinked, a non-string one is a type error, other errors are unchanged. */
  lemma IntendedUnlinksSuppliedPath(b: Block, path: string)
    ensures RunIntended(Some(b)) == Ok(UnlinkCall(path)) <==> OnlyFields(b, Fields) && Lookup(b, "path") == Some(VStr(path))
    ensures OnlyFields(b, Fields) && "path" in Keys(b) && !Lookup(b, "path").value.VStr? ==>
              RunIntended(Some(b)) == Err(TypeMismatch("path"))
    ensures Run(Some(b)).Err? ==> RunIntended(Some(b)) == Run(Some(b))
  {
    if OnlyFields(b, Fields) && "path" in Keys(b) {
      OnlyKeyIsPath(b);
    }
  }

  /** The unlink is invoked exactly when validation succeeds, with the validated path, as written and as intended; any error passes through. */
  lemma InvokedOnlyOnSuccess(ctx: Option<Block>)
    ensures Run(ctx).Ok? <==> ctx.Some? && Validate(ctx.value).Ok?
    ensures Run(ctx).Ok? ==> Run(ctx) == Ok(UnlinkCall(Validate(ctx.value).value.path))
    ensures ctx.Some? && Validate(ctx.value).Err? ==> Run(ctx) == Err(Validate(ctx.value).error)
    ensures RunIntended(ctx).Ok? <==> ctx.Some? && ValidateIntended(ctx.value).Ok?
    ensures RunIntended(ctx).Ok? ==> RunIntended(ctx) == Ok(UnlinkCall(ValidateIntended(ctx.value).value.path))
    ensures ctx.Some? && ValidateIntended(ctx.value).Err? ==>
              RunIntended(ctx) == Err(ValidateIntended(ctx.value).error)
  {
  }
}
