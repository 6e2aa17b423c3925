/**
 * The move step: validation of the `move` block into a MoveParams record, then one
 * call of shutil.move. Every field is required and there is no pre-check on the paths.
 */
module Move {
  import opened Wrappers
  import opened Context
  import opened Validation
  import opened Effects

  /** The fields of MoveParams in declaration order: the accepted keys, and also the required ones. */
  const Fields: seq<string> := ["source", "destination"]

  /** MoveParams once validated. */
  datatype Params = Params(source: string, destination: string)

  /** The type checks after both loops, in field order. */
  function CheckTypes(b: Block): Result<Params, Error>
    requires "source" in Keys(b) && "destination" in Keys(b)
  {
    var source := Lookup(b, "source").value;
    var destination := Lookup(b, "destination").value;
    if !source.VStr? then Err(TypeMismatch("source"))
    else if !destination.VStr? then Err(TypeMismatch("destination"))
    else Ok(Params(source.s, destination.s))
  }

  /** The checks of run_step after the context key, in the order the step makes them. */
  function Validate(b: Block): Result<Params, Error>
  {
    match FirstUnexpected(Keys(b), Fields)
    case Some(k) => Err(UnexpectedKey(k))
    case None =>
      match FirstMissing(Keys(b), Fields)
      case Some(k) => Err(MissingRequired(k))
      case None => CheckTypes(b)
  }

  /** run_step: the context key, the validation, then the move. */
  function Run(ctx: Option<Block>): Result<Primitive, Error>
  {
    match ctx
    case None => Err(MissingContextKey)
    case Some(b) =>
      match Validate(b)
      case Err(e) => Err(e)
      case Ok(p) => Ok(MoveCall(p.source, p.destination))
  }

  /** run_step step by step: the loop over the keys, the loop over the fields, then the type checks. */
  method RunStep(ctx: Option<Block>) returns (r: Result<Primitive, Error>)
    ensures ctx.None? ==> r == Err(MissingContextKey)
    ensures r == Run(ctx)
  {
    if ctx.None? {
      return Err(MissingContextKey);
    }
    var unexpected := FindUnexpected(ctx.value, Fields);
    if unexpected.Some? {
      return Err(UnexpectedKey(unexpected.value));
    }
    var missing := FindMissing(ctx.value, Fields);
    if missing.Some? {
      return Err(MissingRequired(missing.value));
    }
    var checked := CheckTypes(ctx.value);
    if checked.Err? {
      return Err(checked.error);
    }
    r := Ok(MoveCall(checked.value.source, checked.value.destination));
  }

  /** A key outside the fields, preceded only by fields, is reported whatever else the block lacks. */
  lemma WhitelistFirst(b: Block, i: nat)
    requires i < |b| && b[i].0 !in Fields
    requires forall j :: 0 <= j < i ==> b[j].0 in Fields
    ensures Validate(b) == Err(UnexpectedKey(b[i].0))
  {
    FirstUnexpectedAt(Keys(b), Fields, i);
  }

  /** Every field is required, in declaration order: with both missing, the error names source. */
  lemma RequiredAreAllFields(b: Block)
    requires OnlyFields(b, Fields)
    ensures "source" !in Keys(b) ==> Validate(b) == Err(MissingRequired("source"))
    ensures "source" in Keys(b) && "destination" !in Keys(b) ==> Validate(b) == Err(MissingRequired("destination"))
  {
  }

  /** With every key present, types are checked in the order source, destination. */
  lemma TypeCheckOrder(b: Block)
    requires OnlyFields(b, Fields) && "source" in Keys(b) && "destination" in Keys(b)
    ensures !Lookup(b, "source").value.VStr? ==> Validate(b) == Err(TypeMismatch("source"))
    ensures Lookup(b, "source").value.VStr? && !Lookup(b, "destination").value.VStr? ==>
              Validate(b) == Err(TypeMismatch("destination"))
  {
  }

  /** With no pre-check on the paths, the move is invoked exactly for a block of two strings, with that pair. */
  lemma MovesValidatedPair(b: Block, source: string, destination: string)
    ensures Run(Some(b)) == Ok(MoveCall(source, destination)) <==>
              OnlyFields(b, Fields) && Lookup(b, "source") == Some(VStr(source)) && Lookup(b, "destination") == Some(VStr(destination))
  {
  }

  /** The move is invoked exactly when validation succeeds, with the validated pair; any error passes through. */
  lemma InvokedOnlyOnSuccess(ctx: Option<Block>)
    ensures Run(ctx).Ok? <==> ctx.Some? && Validate(ctx.value).Ok?
    ensures Run(ctx).Ok? ==>
              var p := Validate(ctx.value).value;
              Run(ctx) == Ok(MoveCall(p.source, p.destination))
    ensures ctx.Some? && Validate(ctx.value).Err? ==> Run(ctx) == Err(Validate(ctx.value).error)
  {
  }
}
