/**
 * The error kinds the steps raise and the two key scans they share: the whitelist
 * scan over the block's keys and the scan over a list of required field names.
 */
module Validation {
  import opened Wrappers
  import opened Context

  /** The exceptions of the steps, one constructor per kind. */
  datatype Error =
    | MissingContextKey          // assert_key_has_value: the step's key is absent or None
    | UnexpectedKey(key: string) // KeyError for a key outside the record's fields
    | MissingRequired(key: string) // KeyNotInContextError for an absent required field
    | TypeMismatch(field: string)  // TypeError from a type check
    | NotFound                   // FileNotFoundError: the source path does not exist
    | NotADirectory              // NotADirectoryError: the path is missing or not a directory
    | ArgumentCount(given: nat)  // TypeError: a record built from the wrong number of positional arguments
    | AttributeMissing(name: string) // AttributeError: a record attribute that does not exist

  /** The first key, in iteration order, that is not among the allowed field names. */
  function FirstUnexpected(keys: seq<string>, allowed: seq<string>): (r: Option<string>)
    ensures r.None? <==> forall k :: k in keys ==> k in allowed
    ensures r.Some? ==> r.value in keys && r.value !in allowed
  {
    if keys == [] then None
    else if keys[0] !in allowed then Some(keys[0])
    else FirstUnexpected(keys[1..], allowed)
  }

  /** Every key of the block is one of the record's fields. */
  predicate OnlyFields(b: Block, fields: seq<string>)
  {
    forall k :: k in Keys(b) ==> k in fields
  }

  /** A disallowed key preceded only by allowed ones is the one reported. */
  lemma {:induction false} FirstUnexpectedAt(keys: seq<string>, allowed: seq<string>, i: nat)
    requires i < |keys| && keys[i] !in allowed
    requires forall j :: 0 <= j < i ==> keys[j] in allowed
    ensures FirstUnexpected(keys, allowed) == Some(keys[i])
  {
    if i > 0 {
      FirstUnexpectedAt(keys[1..], allowed, i - 1);
    }
  }

  /** The first required field name, in list order, that is not among the present keys. */
  function FirstMissing(present: seq<string>, required: seq<string>): (r: Option<string>)
    ensures r.None? <==> forall k :: k in required ==> k in present
    ensures r.Some? ==> r.value in required && r.value !in present
  {
    if required == [] then None
    else if required[0] !in present then Some(required[0])
    else FirstMissing(present, required[1..])
  }

  /** An absent required name preceded only by present ones is the one reported. */
  lemma {:induction false} FirstMissingAt(present: seq<string>, required: seq<string>, i: nat)
    requires i < |required| && required[i] !in present
    requires forall j :: 0 <= j < i ==> required[j] in present
    ensures FirstMissing(present, required) == Some(required[i])
  {
    if i > 0 {
      FirstMissingAt(present, required[1..], i - 1);
    }
  }

  /** `for key in block: if key not in parameters: raise KeyError(...)`, with its early exit. */
  method FindUnexpected(b: Block, allowed: seq<string>) returns (unexpected: Option<string>)
    ensures unexpected == FirstUnexpected(Keys(b), allowed)
  {
    var i := 0;
    while i < |b|
      invariant 0 <= i <= |b|
      invariant forall j :: 0 <= j < i ==> b[j].0 in allowed
    {
      if b[i].0 !in allowed {
        FirstUnexpectedAt(Keys(b), allowed, i);
        return Some(b[i].0);
      }
      i := i + 1;
    }
    return None;
  }

  /** `for key in required: if key not in block: raise KeyNotInContextError(...)`, with its early exit. */
  method FindMissing(b: Block, required: seq<string>) returns (missing: Option<string>)
    ensures missing == FirstMissing(Keys(b), required)
  {
    var i := 0;
    while i < |required|
      invariant 0 <= i <= |required|
      invariant forall j :: 0 <= j < i ==> required[j] in Keys(b)
    {
      if required[i] !in Keys(b) {
        FirstMissingAt(Keys(b), required, i);
        return Some(required[i]);
      }
      i := i + 1;
    }
    return None;
  }
}
