/**
 * The copy-tree step: validation of the `copy` block into a CopyTreeParams record,
 * then one call of shutil.copytree.
 */
module CopyTree {
  import opened Wrappers
  import opened Context
  import opened Validation
  import opened Effects

  /** The fields of CopyTreeParams in declaration order: the accepted keys. */
  const Fields: seq<string> := ["source", "destination", "follow_symlinks", "dirs_exist_ok", "ignore"]

  /** The keys the step demands, checked in this order. */
  const Required: seq<string> := ["source", "destination"]

  /** CopyTreeParams as built from the block, before any type check. */
  datatype RawParams = RawParams(source: Value, destination: Value, followSymlinks: Value, dirsExistOk: Value, ignore: Value)

  /** CopyTreeParams once validated; `ignore` holds the patterns handed to shutil.ignore_patterns. */
  datatype Params = Params(source: string, destination: string, followSymlinks: bool, dirsExistOk: bool, ignore: seq<string>)

  /** `CopyTreeParams(**block)`: a present key sets its field, an absent optional field takes its default. */
  function Construct(b: Block): RawParams
    requires "source" in Keys(b) && "destination" in Keys(b)
  {
    RawParams(Lookup(b, "source").value, Lookup(b, "destination").value,
              Get(b, "follow_symlinks", VBool(true)), Get(b, "dirs_exist_ok", VBool(false)),
              Get(b, "ignore", VList([])))
  }

  /** A single string pattern is replaced by the one-element list holding it. */
  function CoerceIgnore(v: Value): Value
  {
    if v.VStr? then VList([v]) else v
  }

  /** The patterns `all(map(lambda x: isinstance(x, str), ignore))` accepts; None where it raises or is false. */
  function IgnorePatterns(v: Value): Option<seq<string>>
  {
    match Iterate(v)
    case None => None
    case Some(items) => StringsOf(items)
  }

  /** The checks of run_step after the context key, in the order the step makes them. */
  function Validate(b: Block, pathExists: string -> bool): Result<Params, Error>
  {
    match FirstUnexpected(Keys(b), Fields)
    case Some(k) => Err(UnexpectedKey(k))
    case None =>
      match FirstMissing(Keys(b), Required)
      case Some(k) => Err(MissingRequired(k))
      case None =>
        var raw := Construct(b);
        match IgnorePatterns(CoerceIgnore(raw.ignore))
        case None => Err(TypeMismatch("ignore"))
        case Some(patterns) =>
          if !raw.source.VStr? then Err(TypeMismatch("source"))
          else if !raw.destination.VStr? then Err(TypeMismatch("destination"))
          else if !raw.followSymlinks.VBool? then Err(TypeMismatch("follow_symlinks"))
          else if !raw.dirsExistOk.VBool? then Err(TypeMismatch("dirs_exist_ok"))
          else if !pathExists(raw.source.s) then Err(NotFound)
          else Ok(Params(raw.source.s, raw.destination.s, raw.followSymlinks.b, raw.dirsExistOk.b, patterns))
  }

  /** The call as the step makes it: follow_symlinks is passed as shutil's `symlinks`. */
  function Dispatch(p: Params): Primitive
  {
    CopyTreeCall(p.source, p.destination, p.ignore, p.followSymlinks, p.dirsExistOk)
  }

  /** run_step: the context key, the validation, then the copy. */
  function Run(ctx: Option<Block>, pathExists: string -> bool): Result<Primitive, Error>
  {
    match ctx
    case None => Err(MissingContextKey)
    case Some(b) =>
      match Validate(b, pathExists)
      case Err(e) => Err(e)
      case Ok(p) => Ok(Dispatch(p))
  }

  /** run_step step by step: the two key loops, the in-place coercion of `ignore`, the guards. */
  method RunStep(ctx: Option<Block>, pathExists: string -> bool) returns (r: Result<Primitive, Error>)
    ensures ctx.None? ==> r == Err(MissingContextKey)
    ensures r == Run(ctx, pathExists)
  {
    if ctx.None? {
      return Err(MissingContextKey);
    }
    var b := ctx.value;
    var unexpected := FindUnexpected(b, Fields);
    if unexpected.Some? {
      return Err(UnexpectedKey(unexpected.value));
    }
    var missing := FindMissing(b, Required);
    if missing.Some? {
      return Err(MissingRequired(missing.value));
    }
    var params := Construct(b);
    if params.ignore.VStr? {
      params := params.(ignore := VList([params.ignore]));
    }
    var patterns := IgnorePatterns(params.ignore);
    if patterns.None? {
      return Err(TypeMismatch("ignore"));
    }
    if !params.source.VStr? {
      return Err(TypeMismatch("source"));
    }
    if !params.destination.VStr? {
      return Err(TypeMismatch("destination"));
    }
    if !params.followSymlinks.VBool? {
      return Err(TypeMismatch("follow_symlinks"));
    }
    if !params.dirsExistOk.VBool? {
      return Err(TypeMismatch("dirs_exist_ok"));
    }
    if !pathExists(params.source.s) {
      return Err(NotFound);
    }
    var validated := Params(params.source.s, params.destination.s, params.followSymlinks.b,
                            params.dirsExistOk.b, patterns.value);
    r := Ok(Dispatch(validated));
  }

  /**
   * The patterns the block's `ignore` stands for: none when it is absent, [s] for a str s,
   * the strings of a list of strings in order, the keys of a dict.
   */
  predicate IgnoreGives(b: Block, patterns: seq<string>)
  {
    match Lookup(b, "ignore")
    case None => patterns == []
    case Some(VStr(s)) => patterns == [s]
    case Some(VList(items)) => |items| == |patterns| && forall i :: 0 <= i < |items| ==> items[i] == VStr(patterns[i])
    case Some(VMap(entries)) => patterns == Keys(entries)
    case Some(_) => false
  }

  /** An `ignore` the element check rejects: a value that cannot be iterated, or a list holding a non-string. */
  predicate BadIgnore(b: Block)
  {
    match Lookup(b, "ignore")
    case Some(VNone) => true
    case Some(VBool(_)) => true
    case Some(VInt(_)) => true
    case Some(VList(items)) => exists i :: 0 <= i < |items| && !items[i].VStr?
    case _ => false
  }

  /** The coercion and element check of lines 54-61 accept exactly the `ignore` values above, with those patterns. */
  lemma IgnoreMeaning(b: Block, patterns: seq<string>)
    ensures IgnorePatterns(CoerceIgnore(Get(b, "ignore", VList([])))) == Some(patterns) <==> IgnoreGives(b, patterns)
    ensures IgnorePatterns(CoerceIgnore(Get(b, "ignore", VList([])))).None? <==> BadIgnore(b)
  {
    match Lookup(b, "ignore")
    case None =>
    case Some(VStr(s)) =>
      assert [VStr(s)][1..] == [];
      assert StringsOf([VStr(s)]) == Some([s] + []);
      assert CoerceIgnore(Get(b, "ignore", VList([]))) == VList([VStr(s)]);
      assert [s] + [] == [s];
      assert Iterate(VList([VStr(s)])) == Some([VStr(s)]);
      assert IgnorePatterns(VList([VStr(s)])) == Some([s]);
    case Some(VList(items)) =>
      var r := StringsOf(items);
      if r.Some? && IgnoreGives(b, patterns) {
        assert r.value == patterns;
      }
    case Some(VMap(entries)) =>
      var items := Iterate(VMap(entries)).value;
      var r := StringsOf(items);
      assert r.Some?;
      assert r.value == Keys(entries) by {
        forall i | 0 <= i < |entries| ensures r.value[i] == Keys(entries)[i] {
          assert items[i] == VStr(entries[i].0);
        }
      }
    case Some(_) =>
  }

  /** A key outside the fields, preceded only by fields, is reported whatever else the block lacks. */
  lemma WhitelistFirst(b: Block, pathExists: string -> bool, i: nat)
    requires i < |b| && b[i].0 !in Fields
    requires forall j :: 0 <= j < i ==> b[j].0 in Fields
    ensures Validate(b, pathExists) == Err(UnexpectedKey(b[i].0))
  {
    FirstUnexpectedAt(Keys(b), Fields, i);
  }

  /** Once the whitelist passes, a missing source is reported before a missing destination. */
  lemma RequiredInOrder(b: Block, pathExists: string -> bool)
    requires OnlyFields(b, Fields)
    ensures "source" !in Keys(b) ==> Validate(b, pathExists) == Err(MissingRequired("source"))
    ensures "source" in Keys(b) && "destination" !in Keys(b) ==>
              Validate(b, pathExists) == Err(MissingRequired("destination"))
  {
  }

  /** A validated record carries the block's values, and the defaults for the absent optional keys. */
  lemma ValidatedRecord(b: Block, pathExists: string -> bool)
    ensures Validate(b, pathExists).Ok? ==>
              var p := Validate(b, pathExists).value;
              && OnlyFields(b, Fields)
              && Lookup(b, "source") == Some(VStr(p.source))
              && Lookup(b, "destination") == Some(VStr(p.destination))
              && ("follow_symlinks" in Keys(b) ==> Lookup(b, "follow_symlinks") == Some(VBool(p.followSymlinks)))
              && ("follow_symlinks" !in Keys(b) ==> p.followSymlinks)
              && ("dirs_exist_ok" in Keys(b) ==> Lookup(b, "dirs_exist_ok") == Some(VBool(p.dirsExistOk)))
              && ("dirs_exist_ok" !in Keys(b) ==> !p.dirsExistOk)
              && ("ignore" !in Keys(b) ==> p.ignore == [])
              && IgnoreGives(b, p.ignore)
              && pathExists(p.source)
  {
    if Validate(b, pathExists).Ok? {
      var p := Validate(b, pathExists).value;
      assert FirstUnexpected(Keys(b), Fields).None? && FirstMissing(Keys(b), Required).None?;
      var raw := Construct(b);
      assert raw.source == VStr(p.source) && raw.destination == VStr(p.destination);
      assert raw.followSymlinks == VBool(p.followSymlinks) && raw.dirsExistOk == VBool(p.dirsExistOk);
      assert Some(p.ignore) == IgnorePatterns(CoerceIgnore(raw.ignore));
      IgnoreMeaning(b, p.ignore);
    }
  }

  /** A block holding only source and destination validates to the defaults when the source exists. */
  lemma DefaultRecord(b: Block, src: string, dst: string, pathExists: string -> bool)
    requires b == [("source", VStr(src)), ("destination", VStr(dst))]
    ensures Validate(b, pathExists) == if pathExists(src) then Ok(Params(src, dst, true, false, [])) else Err(NotFound)
  {
    assert Keys(b) == ["source", "destination"];
  }

  /** A block of string paths, bool flags and an acceptable `ignore` validates, unless the source does not exist. */
  lemma AcceptedBlock(b: Block, pathExists: string -> bool, src: string, dst: string,
                      followSymlinks: bool, dirsExistOk: bool, patterns: seq<string>)
    requires OnlyFields(b, Fields)
    requires Lookup(b, "source") == Some(VStr(src)) && Lookup(b, "destination") == Some(VStr(dst))
    requires Get(b, "follow_symlinks", VBool(true)) == VBool(followSymlinks)
    requires Get(b, "dirs_exist_ok", VBool(false)) == VBool(dirsExistOk)
    requires IgnoreGives(b, patterns)
    ensures Validate(b, pathExists) ==
              if pathExists(src) then Ok(Params(src, dst, followSymlinks, dirsExistOk, patterns)) else Err(NotFound)
  {
    IgnoreMeaning(b, patterns);
  }

  /** A string `ignore` "p" validates exactly as the list ["p"] does. */
  lemma StringIgnoreIsSingletonList(b1: Block, b2: Block, pattern: string, pathExists: string -> bool)
    requires Keys(b1) == Keys(b2)
    requires forall k :: k in Fields && k != "ignore" ==> Lookup(b1, k) == Lookup(b2, k)
    requires Lookup(b1, "ignore") == Some(VStr(pattern))
    requires Lookup(b2, "ignore") == Some(VList([VStr(pattern)]))
    ensures Validate(b1, pathExists) == Validate(b2, pathExists)
  {
    assert "source" in Fields && "destination" in Fields;
    assert "follow_symlinks" in Fields && "dirs_exist_ok" in Fields;
    assert Lookup(b1, "source") == Lookup(b2, "source");
    assert Lookup(b1, "destination") == Lookup(b2, "destination");
    assert Lookup(b1, "follow_symlinks") == Lookup(b2, "follow_symlinks");
    assert Lookup(b1, "dirs_exist_ok") == Lookup(b2, "dirs_exist_ok");
    assert IgnorePatterns(CoerceIgnore(VStr(pattern))) == IgnorePatterns(CoerceIgnore(VList([VStr(pattern)])));
  }

  /** A dict `ignore` is accepted, and its keys become the patterns. */
  lemma MappingIgnoreUsesKeys(b: Block, entries: seq<(string, Value)>, pathExists: string -> bool)
    requires OnlyFields(b, Fields) && "source" in Keys(b) && "destination" in Keys(b)
    requires Lookup(b, "ignore") == Some(VMap(entries))
    ensures Validate(b, pathExists) != Err(TypeMismatch("ignore"))
    ensures Validate(b, pathExists).Ok? ==> Validate(b, pathExists).value.ignore == Keys(entries)
  {
    IgnoreMeaning(b, Keys(entries));
  }

  /** A list `ignore` passes the element check exactly when all its elements are strings, which become the patterns in order. */
  lemma ListIgnorePatterns(b: Block, items: seq<Value>, pathExists: string -> bool)
    requires OnlyFields(b, Fields) && "source" in Keys(b) && "destination" in Keys(b)
    requires Lookup(b, "ignore") == Some(VList(items))
    ensures Validate(b, pathExists) != Err(TypeMismatch("ignore")) <==> forall i :: 0 <= i < |items| ==> items[i].VStr?
    ensures Validate(b, pathExists).Ok? ==>
              var patterns := Validate(b, pathExists).value.ignore;
              |patterns| == |items| && forall i :: 0 <= i < |items| ==> items[i] == VStr(patterns[i])
  {
    IgnoreMeaning(b, []);
    ValidatedRecord(b, pathExists);
  }

  /**
   * Whatever the types of the other fields, TypeMismatch(ignore) arises exactly for an `ignore`
   * that cannot be iterated or a list holding a non-string: the element check comes before the type checks.
   */
  lemma IgnoreCheckedFirst(b: Block, pathExists: string -> bool)
    requires OnlyFields(b, Fields) && "source" in Keys(b) && "destination" in Keys(b)
    ensures Validate(b, pathExists) == Err(TypeMismatch("ignore")) <==> BadIgnore(b)
  {
    IgnoreMeaning(b, []);
  }

  /** With an acceptable `ignore`, the field types are checked in the order source, destination, follow_symlinks, dirs_exist_ok. */
  lemma TypeCheckOrder(b: Block, pathExists: string -> bool)
    requires OnlyFields(b, Fields) && "source" in Keys(b) && "destination" in Keys(b)
    requires !BadIgnore(b)
    ensures !Construct(b).source.VStr? ==> Validate(b, pathExists) == Err(TypeMismatch("source"))
    ensures Construct(b).source.VStr? && !Construct(b).destination.VStr? ==>
              Validate(b, pathExists) == Err(TypeMismatch("destination"))
    ensures Construct(b).source.VStr? && Construct(b).destination.VStr? && !Construct(b).followSymlinks.VBool? ==>
              Validate(b, pathExists) == Err(TypeMismatch("follow_symlinks"))
    ensures Construct(b).source.VStr? && Construct(b).destination.VStr? && Construct(b).followSymlinks.VBool? &&
            !Construct(b).dirsExistOk.VBool? ==>
              Validate(b, pathExists) == Err(TypeMismatch("dirs_exist_ok"))
  {
  }

  /** Every error but NotFound is decided before the filesystem is consulted. */
  lemma FilesystemConsultedLast(b: Block, exists1: string -> bool, exists2: string -> bool)
    requires Validate(b, exists1).Err? && Validate(b, exists1).error != NotFound
    ensures Validate(b, exists2) == Validate(b, exists1)
  {
  }

  /** NotFound comes only from a block that passes every type check and names a missing source. */
  lemma NotFoundAfterTypeChecks(b: Block, pathExists: string -> bool)
    ensures Validate(b, pathExists) == Err(NotFound) ==>
              Validate(b, _ => true).Ok? && !pathExists(Validate(b, _ => true).value.source)
  {
  }

  /** The copy is invoked exactly when validation succeeds, with the validated fields and symlinks = follow_symlinks. */
  lemma InvokedOnlyOnSuccess(ctx: Option<Block>, pathExists: string -> bool)
    ensures Run(ctx, pathExists).Ok? <==> ctx.Some? && Validate(ctx.value, pathExists).Ok?
    ensures Run(ctx, pathExists).Ok? ==>
              var p := Validate(ctx.value, pathExists).value;
              Run(ctx, pathExists) == Ok(CopyTreeCall(p.source, p.destination, p.ignore, p.followSymlinks, p.dirsExistOk))
    ensures ctx.Some? && Validate(ctx.value, pathExists).Err? ==> Run(ctx, pathExists) == Err(Validate(ctx.value, pathExists).error)
  {
  }

  /** As written, the copy dereferences links exactly when follow_symlinks is false. */
  lemma SymlinksInverted(ctx: Option<Block>, pathExists: string -> bool)
    requires Run(ctx, pathExists).Ok?
    ensures FollowsLinks(Run(ctx, pathExists).value) <==> !Validate(ctx.value, pathExists).value.followSymlinks
  {
  }

  /** With the default follow_symlinks = true, the copy as written keeps links instead of following them. */
  lemma DefaultDoesNotFollowLinks(b: Block, src: string, dst: string)
    requires b == [("source", VStr(src)), ("destination", VStr(dst))]
    ensures Run(Some(b), _ => true) == Ok(CopyTreeCall(src, dst, [], true, false))
    ensures !FollowsLinks(Run(Some(b), _ => true).value)
  {
    DefaultRecord(b, src, dst, _ => true);
  }

  /** The call the step evidently intends: shutil's `symlinks` is the negation of follow_symlinks. */
  function DispatchIntended(p: Params): Primitive
  {
    CopyTreeCall(p.source, p.destination, p.ignore, !p.followSymlinks, p.dirsExistOk)
  }

  /** run_step with the intended mapping of follow_symlinks. */
  function RunIntended(ctx: Option<Block>, pathExists: string -> bool): Result<Primitive, Error>
  {
    match ctx
    case None => Err(MissingContextKey)
    case Some(b) =>
      match Validate(b, pathExists)
      case Err(e) => Err(e)
      case Ok(p) => Ok(DispatchIntended(p))
  }

  /** With the intended mapping, the copy follows links exactly when follow_symlinks is true; nothing else changes. */
  lemma IntendedFollowsLinks(ctx: Option<Block>, pathExists: string -> bool)
    ensures RunIntended(ctx, pathExists).Ok? <==> Run(ctx, pathExists).Ok?
    ensures RunIntended(ctx, pathExists).Err? ==> RunIntended(ctx, pathExists) == Run(ctx, pathExists)
    ensures RunIntended(ctx, pathExists).Ok? ==>
              (FollowsLinks(RunIntended(ctx, pathExists).value) <==> Validate(ctx.value, pathExists).value.followSymlinks)
  {
  }
}
