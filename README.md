# pypyrshell steps: parameter validation, modelled in Dafny

pypyrshell provides five pipeline steps for the pypyr host: copy a file, copy a
directory tree, move, remove a file and remove a directory tree. Each step's
`run_step` reads one mapping from the pipeline context (`copy`, `move` or
`remove`). It validates that mapping into a dataclass record and then makes a
single call to `shutil` or `os`. This project models that validation and the
order of its checks:

1. the context key is present;
2. no key outside the record's fields appears (the whitelist);
3. the required keys are present;
4. the record is built, with defaults for absent optional fields;
5. the field types are checked in a fixed order: declaration order, except
   that copy-tree checks `ignore` (its last field) before all the others;
6. the existence pre-checks run.

The final filesystem call is modelled as a value, `Effects.Primitive`: it records
which primitive would be invoked and with which arguments.

Layout (one module per file):

- `wrappers.dfy` — `Wrappers`: `Option` and `Result`.
- `context.dfy` — `Context`: the dynamic `Value` type and `Block`. A `Block` is a
  resolved mapping stored as a sequence of distinct keys in dict iteration order.
  The module also holds dict lookup, keyword-construction defaults (`Get`) and
  Python's iteration protocol (`Iterate`, `StringsOf`).
- `validation.dfy` — `Validation`: the error kinds, plus the two key scans the
  steps share. `FirstUnexpected` is the whitelist. `FirstMissing` walks a list
  of required names. Each scan has a specification function and a method with
  the source's early-exit `for` loop.
- `effects.dfy` — `Effects`: the five filesystem primitives as call records.
- `copytree.dfy`, `copyfile.dfy`, `rmtree.dfy`, `move.dfy`, `rm.dfy` — one module
  per step (`CopyTree`, `CopyFile`, `RemoveTree`, `Move`, `Remove`). Each has:
  - `Validate`, a pure function giving the validated record or the first error;
  - `Run`, giving the invoked primitive or the error;
  - `RunStep`, a method proved equal to `Run`. It runs the key loops as `while`
    loops with early exit (the shared `FindUnexpected` and `FindMissing`).
    Copy-tree's method also writes out the `ignore` coercion and its guards as
    statements. The other four hand the straight-line checks to a pure function:
    `CheckFields` (copy-file, remove-tree, remove-file) or `CheckTypes` (move);
  - lemmas about the order of the checks.

`Run` returning `Ok(call)` means the primitive is invoked exactly once, with those
arguments. `Err(e)` means the step raised `e` and nothing was invoked.
`os.path.exists` and `os.path.isdir` are function parameters (`pathExists`,
`isDir`) that the model knows nothing about.

Where the code and the steps' docstrings disagree, the
model follows the code:

- Remove-file: its record has only `path`, so `ignore_errors` is rejected as an
  unexpected key. The docstring lists `ignore_errors` as optional
  (pypyrshell/steps/rm.py:23).
- Copy-tree: the code passes `follow_symlinks` as shutil's `symlinks`, which
  reverses its meaning. The docstring says "Follow symlinks (default: True)"
  (pypyrshell/steps/copytree.py:29). See Findings.
- Copy-tree: besides a string or a list of strings, a dict `ignore` is accepted.
  Iterating a dict yields its keys, and those become the patterns. The docstring
  speaks of a list of strings (pypyrshell/steps/copytree.py:30).
- Copy-file never reaches the copy: the log line fails first (see Findings).
- Remove-file unlinks the literal string `"path"` (see Findings).

## Model

| member | source | states |
|---|---|---|
| Context.Lookup | pypyrshell/steps/copyfile.py:62 | `block[k]` exists exactly when `k` is a key, and then it is the value stored under `k` |
| Context.StringsOf | pypyrshell/steps/copytree.py:59 | `all(isinstance(x, str) ...)` succeeds exactly when every element is a str, and yields those strings in order |
| Context.Get | pypyrshell/steps/copytree.py:16-18 | definition, no contract: a keyword-constructed record field is the block's value when the key is present and the dataclass default otherwise; pinned by CopyTree.ValidatedRecord, CopyFile.ValidatedRecord and RemoveTree.ValidatedRecord |
| Context.Iterate | pypyrshell/steps/copytree.py:59 | definition, no contract: `map` over a str yields its characters, over a list its elements, over a dict its keys, and fails on any other value; pinned by CopyTree.IgnoreMeaning |
| Validation.FirstUnexpected | pypyrshell/steps/copytree.py:44-46 | no key is reported exactly when every key is an allowed field; a reported key is a block key outside the fields |
| Validation.FirstUnexpectedAt | pypyrshell/steps/copytree.py:44-46 | the reported key is the first disallowed key in iteration order |
| Validation.FindUnexpected | pypyrshell/steps/copytree.py:43-46 | the early-exit loop over the block's keys returns exactly what the whitelist specification reports |
| Validation.FirstMissing | pypyrshell/steps/copytree.py:48-51 | nothing is reported exactly when every required name is a key; a reported name is required and absent |
| Validation.FirstMissingAt | pypyrshell/steps/move.py:41-43 | the reported name is the first absent one in the order of the required list |
| Validation.FindMissing | pypyrshell/steps/copytree.py:48-51 | the early-exit loop over the required names returns exactly what the specification reports |
| Effects.FollowsLinks | pypyrshell/steps/copytree.py:85 | definition, no contract: `shutil.copytree` follows links exactly when its `symlinks` argument is false (shutil's documented meaning, which the copy-tree finding rests on); used by CopyTree.SymlinksInverted and CopyTree.IntendedFollowsLinks |
| CopyTree.RunStep | pypyrshell/steps/copytree.py:39-86 | the step, with its two loops and the in-place string-to-list coercion of `ignore`, yields exactly `Run`; a missing context key is reported first |
| CopyTree.Construct | pypyrshell/steps/copytree.py:52 | definition, no contract: `CopyTreeParams(**copy_context)` takes each field from the block, or its default; pinned by CopyTree.ValidatedRecord and CopyTree.DefaultRecord |
| CopyTree.CoerceIgnore | pypyrshell/steps/copytree.py:54-57 | definition, no contract: a str `ignore` becomes the one-element list holding it, any other value is kept; pinned by CopyTree.StringIgnoreIsSingletonList and CopyTree.IgnoreMeaning |
| CopyTree.IgnorePatterns | pypyrshell/steps/copytree.py:59-61 | definition, no contract: the element check over the coerced `ignore` gives its strings, and fails for a non-iterable value or a non-string element; pinned by CopyTree.IgnoreMeaning |
| CopyTree.Validate | pypyrshell/steps/copytree.py:43-78 | definition, no contract: whitelist, required keys, construction, `ignore` check, type checks, existence check, in that order; pinned by CopyTree.WhitelistFirst, RequiredInOrder, IgnoreCheckedFirst, TypeCheckOrder, NotFoundAfterTypeChecks, ValidatedRecord and AcceptedBlock |
| CopyTree.Dispatch | pypyrshell/steps/copytree.py:83-86 | definition, no contract: the copytree call as written, with symlinks = follow_symlinks; pinned by CopyTree.InvokedOnlyOnSuccess and SymlinksInverted |
| CopyTree.Run | pypyrshell/steps/copytree.py:39-86 | definition, no contract: a missing context key, then the validation, then the call; pinned by CopyTree.RunStep and InvokedOnlyOnSuccess |
| CopyTree.DispatchIntended | pypyrshell/steps/copytree.py:85 | definition, no contract: the corrected call, with symlinks = not follow_symlinks; pinned by CopyTree.IntendedFollowsLinks |
| CopyTree.RunIntended | pypyrshell/steps/copytree.py:39-86 | definition, no contract: the step with the corrected call; pinned by CopyTree.IntendedFollowsLinks |
| CopyTree.WhitelistFirst | pypyrshell/steps/copytree.py:43-46 | a key outside {source, destination, follow_symlinks, dirs_exist_ok, ignore} gives UnexpectedKey for the first such key, whatever required key is missing |
| CopyTree.RequiredInOrder | pypyrshell/steps/copytree.py:48-51 | once the whitelist passes, a missing source is reported before a missing destination |
| CopyTree.IgnoreMeaning | pypyrshell/steps/copytree.py:54-61 | the coercion and element check accept an `ignore` exactly as follows: absent gives [], a str s gives [s], a list of strings gives those strings in order, a dict gives its keys; they reject exactly a non-iterable value or a list holding a non-string |
| CopyTree.ValidatedRecord | pypyrshell/steps/copytree.py:12-18 | a validated record holds the block's source and destination strings and its bools, with defaults follow_symlinks=true and dirs_exist_ok=false; its patterns are the ones the supplied `ignore` stands for ([] when absent); the source exists |
| CopyTree.AcceptedBlock | pypyrshell/steps/copytree.py:43-78 | a block of fields only, with string paths, bool (or absent) flags and an acceptable `ignore`, validates to exactly those values and patterns when the source exists, and gives NotFound otherwise |
| CopyTree.DefaultRecord | pypyrshell/steps/copytree.py:16-18 | a block with only two string paths validates to the defaults when the source exists, and to NotFound otherwise |
| CopyTree.StringIgnoreIsSingletonList | pypyrshell/steps/copytree.py:54-57 | an `ignore` of "p" gives the same outcome as ["p"] for every block and filesystem |
| CopyTree.ListIgnorePatterns | pypyrshell/steps/copytree.py:59-61 | for the step, a list `ignore` escapes TypeMismatch(ignore) exactly when all its elements are strings, and a validated record's patterns are those strings in order |
| CopyTree.MappingIgnoreUsesKeys | pypyrshell/steps/copytree.py:59-61 | for the step, a dict `ignore` never gives TypeMismatch(ignore), and a validated record's patterns are the dict's keys |
| CopyTree.IgnoreCheckedFirst | pypyrshell/steps/copytree.py:59-74 | whatever the types of source, destination and the flags, TypeMismatch(ignore) arises exactly for a non-iterable `ignore` or a list holding a non-string |
| CopyTree.TypeCheckOrder | pypyrshell/steps/copytree.py:64-74 | with an acceptable `ignore`, the type checks fail in the order source, destination, follow_symlinks, dirs_exist_ok |
| CopyTree.FilesystemConsultedLast | pypyrshell/steps/copytree.py:76-78 | every error except NotFound is the same for every filesystem |
| CopyTree.NotFoundAfterTypeChecks | pypyrshell/steps/copytree.py:77-78 | NotFound arises only when every check up to the existence check passes and the validated source does not exist |
| CopyTree.InvokedOnlyOnSuccess | pypyrshell/steps/copytree.py:83-86 | the copy is invoked exactly when validation succeeds, with the validated paths and patterns, symlinks = follow_symlinks and dirs_exist_ok unchanged; any error passes through |
| CopyTree.SymlinksInverted | pypyrshell/steps/copytree.py:85 | as written, the tree copy follows links exactly when follow_symlinks is false |
| CopyTree.DefaultDoesNotFollowLinks | pypyrshell/steps/copytree.py:83-86 | with default flags the call is copytree(src, dst, [], symlinks=true, dirs_exist_ok=false), which keeps links |
| CopyTree.IntendedFollowsLinks | pypyrshell/steps/copytree.py:85 | with symlinks = not follow_symlinks, links are followed exactly when follow_symlinks is true; success and errors are as before |
| CopyFile.RunStep | pypyrshell/steps/copyfile.py:34-67 | the step, with its whitelist loop and straight-line checks, yields exactly `Run`; a missing context key is reported first |
| CopyFile.CheckFields | pypyrshell/steps/copyfile.py:43-63 | definition, no contract: the required keys, the construction with follow_symlinks defaulting to true, the type checks and the existence check, in that order; pinned by CopyFile.RequiredInOrder, TypeCheckOrder, NotFoundAfterTypeChecks and AcceptedBlock |
| CopyFile.Validate | pypyrshell/steps/copyfile.py:37-63 | definition, no contract: the whitelist, then the straight-line checks; pinned by CopyFile.WhitelistFirst, ValidatedRecord and AcceptedBlock |
| CopyFile.Run | pypyrshell/steps/copyfile.py:34-67 | definition, no contract: a missing context key, the validation, then the log line, which fails on every validated record; pinned by CopyFile.RunStep, CopyNeverReached and InvokedOnlyOnSuccess |
| CopyFile.RunIntended | pypyrshell/steps/copyfile.py:34-67 | definition, no contract: the step with the log line reading follow_symlinks, so copyfile is called; pinned by CopyFile.IntendedCopyInvoked, AcceptedBlock and InvokedOnlyOnSuccess |
| CopyFile.WhitelistFirst | pypyrshell/steps/copyfile.py:38-41 | a key outside {source, destination, follow_symlinks} gives UnexpectedKey for the first such key, before the required checks |
| CopyFile.RequiredInOrder | pypyrshell/steps/copyfile.py:44-47 | once the whitelist passes, a missing source is reported before a missing destination |
| CopyFile.ValidatedRecord | pypyrshell/steps/copyfile.py:12-15 | a validated record holds the block's strings and bool, follow_symlinks defaults to true, and the source exists |
| CopyFile.AcceptedBlock | pypyrshell/steps/copyfile.py:38-63 | a block of fields only, with string paths and a bool (or absent) follow_symlinks, validates to exactly those values when the source exists, and gives NotFound otherwise; the corrected step then invokes copyfile with them |
| CopyFile.TypeCheckOrder | pypyrshell/steps/copyfile.py:52-59 | the type checks fail in the order source, destination, follow_symlinks |
| CopyFile.FilesystemConsultedLast | pypyrshell/steps/copyfile.py:61-63 | every error except NotFound is the same for every filesystem |
| CopyFile.NotFoundAfterTypeChecks | pypyrshell/steps/copyfile.py:62-63 | NotFound arises only after every type check passes, for a source that does not exist |
| CopyFile.CopyNeverReached | pypyrshell/steps/copyfile.py:65-67 | the step never succeeds: it fails at the log line with AttributeMissing exactly when validation passed |
| CopyFile.ValidCopyFails | pypyrshell/steps/copyfile.py:65 | copying an existing a.txt to b.txt validates, yet the step fails with AttributeMissing(follow_sylinks) |
| CopyFile.IntendedCopyInvoked | pypyrshell/steps/copyfile.py:67 | with the log line corrected, copyfile is invoked exactly on success with the validated arguments; errors are as before |
| CopyFile.InvokedOnlyOnSuccess | pypyrshell/steps/copyfile.py:34-63 | a validation error is the step's error, as written and with the log line corrected, so nothing is invoked then; a missing context key is MissingContextKey in both |
| RemoveTree.RunStep | pypyrshell/steps/rmtree.py:32-61 | the step, with its whitelist loop and straight-line checks, yields exactly `Run`; a missing context key is reported first |
| RemoveTree.CheckFields | pypyrshell/steps/rmtree.py:41-57 | definition, no contract: the required path, the construction with ignore_errors defaulting to false, the type checks and the two path checks, in that order; pinned by RemoveTree.TypeCheckOrder and PathChecks |
| RemoveTree.Validate | pypyrshell/steps/rmtree.py:35-57 | definition, no contract: the whitelist, then the straight-line checks; pinned by RemoveTree.WhitelistFirst, MissingPathAfterWhitelist and ValidatedRecord |
| RemoveTree.Run | pypyrshell/steps/rmtree.py:32-61 | definition, no contract: a missing context key, the validation, then the rmtree call; pinned by RemoveTree.RunStep and InvokedOnlyOnSuccess |
| RemoveTree.WhitelistFirst | pypyrshell/steps/rmtree.py:36-39 | a key outside {path, ignore_errors} gives UnexpectedKey for the first such key |
| RemoveTree.MissingPathAfterWhitelist | pypyrshell/steps/rmtree.py:42-43 | MissingRequired(path) arises exactly when the whitelist passes and path is absent |
| RemoveTree.ValidatedRecord | pypyrshell/steps/rmtree.py:12-14 | a validated record holds the block's path string and bool, ignore_errors defaults to false, and the path is an existing directory |
| RemoveTree.TypeCheckOrder | pypyrshell/steps/rmtree.py:48-51 | the type checks fail in the order path, ignore_errors |
| RemoveTree.PathChecks | pypyrshell/steps/rmtree.py:54-57 | after the type checks, a nonexistent path and an existing non-directory both give NotADirectory; otherwise the record is validated |
| RemoveTree.FilesystemConsultedLast | pypyrshell/steps/rmtree.py:53-57 | every error except NotADirectory is the same for every filesystem |
| RemoveTree.InvokedOnlyOnSuccess | pypyrshell/steps/rmtree.py:60-61 | rmtree is invoked exactly on success, with the validated path and ignore_errors; any error passes through |
| Move.RunStep | pypyrshell/steps/move.py:33-54 | the step, with its two loops and the type checks, yields exactly `Run`; a missing context key is reported first |
| Move.CheckTypes | pypyrshell/steps/move.py:45-50 | definition, no contract: the construction and the type checks of source, then destination; pinned by Move.TypeCheckOrder |
| Move.Validate | pypyrshell/steps/move.py:36-50 | definition, no contract: the whitelist, the required loop over the fields, then the type checks; pinned by Move.WhitelistFirst, RequiredAreAllFields and MovesValidatedPair |
| Move.Run | pypyrshell/steps/move.py:33-54 | definition, no contract: a missing context key, the validation, then the move; pinned by Move.RunStep and InvokedOnlyOnSuccess |
| Move.WhitelistFirst | pypyrshell/steps/move.py:37-40 | a key outside {source, destination} gives UnexpectedKey for the first such key, before the required checks |
| Move.RequiredAreAllFields | pypyrshell/steps/move.py:41-43 | every field is required, in declaration order: with both missing the error names source |
| Move.TypeCheckOrder | pypyrshell/steps/move.py:47-50 | the type checks fail in the order source, destination |
| Move.MovesValidatedPair | pypyrshell/steps/move.py:52-54 | move(s, d) is invoked exactly when the block holds only source = s and destination = d as strings; no existence check is made |
| Move.InvokedOnlyOnSuccess | pypyrshell/steps/move.py:36-54 | the move is invoked exactly when validation succeeds, with the validated pair; any validation error is the step's error |
| Remove.RunStep | pypyrshell/steps/rm.py:31-51 | the step, with its whitelist loop and straight-line checks, yields exactly `Run`; a missing context key is reported first |
| Remove.Positional | pypyrshell/steps/rm.py:44 | definition, no contract: `RemoveParams(*args)` takes exactly one positional argument, which becomes the path, and any other count is a TypeError; pinned by Remove.OnlyKeyIsPath and UnlinksLiteralPath |
| Remove.CheckFields | pypyrshell/steps/rm.py:41-48 | definition, no contract: the required path, the construction from the block's keys, then the type check; pinned by Remove.MissingPathAfterWhitelist and UnlinksLiteralPath |
| Remove.Validate | pypyrshell/steps/rm.py:34-48 | definition, no contract: the whitelist, then the straight-line checks; pinned by Remove.WhitelistFirst, IgnoreErrorsRejected and UnlinksLiteralPath |
| Remove.Run | pypyrshell/steps/rm.py:31-51 | definition, no contract: a missing context key, the validation, then the unlink; pinned by Remove.RunStep and InvokedOnlyOnSuccess |
| Remove.WhitelistFirst | pypyrshell/steps/rm.py:35-38 | a key other than path gives UnexpectedKey for the first such key |
| Remove.IgnoreErrorsRejected | pypyrshell/steps/rm.py:35-38 | a block holding ignore_errors always fails with UnexpectedKey, although the docstring lists that key |
| Remove.MissingPathAfterWhitelist | pypyrshell/steps/rm.py:41-42 | MissingRequired(path) arises exactly when the whitelist passes and path is absent |
| Remove.OnlyKeyIsPath | pypyrshell/steps/rm.py:44 | a block that passes both checks has exactly the one key "path", so the positional construction gets one argument |
| Remove.UnlinksLiteralPath | pypyrshell/steps/rm.py:44-51 | every block that passes the checks unlinks the literal "path", whatever its value; the type check never fails; there is no existence pre-check |
| Remove.SuppliedPathIgnored | pypyrshell/steps/rm.py:44 | a request to remove /tmp/a.txt unlinks "path" |
| Remove.IntendedUnlinksSuppliedPath | pypyrshell/steps/rm.py:44-48 | with keyword construction, unlink(p) is invoked exactly for a block holding only path = p as a string; a non-string path is a type error; other errors are as before |
| Remove.ValidateIntended | pypyrshell/steps/rm.py:34-48 | definition, no contract: the validation with `RemoveParams(**rm_context)`, so the path is the supplied value; pinned by Remove.IntendedUnlinksSuppliedPath |
| Remove.RunIntended | pypyrshell/steps/rm.py:31-51 | definition, no contract: the step with the corrected construction; pinned by Remove.IntendedUnlinksSuppliedPath and InvokedOnlyOnSuccess |
| Remove.InvokedOnlyOnSuccess | pypyrshell/steps/rm.py:34-51 | the unlink is invoked exactly when validation succeeds, with the validated path, both as written and with the corrected construction; any validation error is the step's error |

## Left out

- The filesystem primitives `shutil.copytree`, `shutil.copyfile`, `shutil.move`, `shutil.rmtree` and `os.unlink` are foreign calls. They are modelled only as the call record `Effects.Primitive`, so a primitive's own failures are not modelled.
- `os.path.exists` and `os.path.isdir` are parameters of the model. No filesystem is modelled.
- `shutil.ignore_patterns` and glob matching are foreign. Only the pattern list passed to them is kept.
- pypyr's `Context.assert_key_has_value` and `get_formatted` belong to the host. The step's block arrives as an `Option<Block>`, already resolved; `None` stands for an absent or None key. A resolved value that is not a mapping is not modelled.
- Logging is not modelled, except the copy-file log line, which is modelled as the error after validation.
- Exception classes and message texts are collapsed into the kinds of `Validation.Error`. A TypeError from `map` over a non-iterable `ignore` and one from the element check both become `TypeMismatch("ignore")`.
- `Context.Value` has no float, date or other scalar shapes. They would behave like `VInt`: not a str, not a bool, not iterable.
- Top-level keys of a step's block are strings in the model (`Context.Block`). A YAML mapping can carry a non-string key such as `copy: {1: x}`, which Python rejects with KeyError at the whitelist loop; the model cannot express that block.
- Keys of a nested mapping (a dict `ignore`) are strings in the model. Python would reject a non-string key at the element check.
- A nested mapping (`Context.VMap`) is not required to have distinct keys, so the `ignore` lemmas also cover dicts Python cannot build. There, as in Python's iteration, the patterns are the keys in order.
- Concurrency and atomicity: there are none in the code.

## Findings

| source | as written | input that shows it | evidently intended | confidence | as-written member | corrected member |
|---|---|---|---|---|---|---|
| pypyrshell/steps/copyfile.py:65 | the log line reads `params.follow_sylinks`, which the record does not have, so every validated request raises AttributeError before the copy | `copy: {source: a.txt, destination: b.txt}` with a.txt present | read `params.follow_symlinks` and go on to copy | high; not executed | CopyFile.ValidCopyFails | CopyFile.IntendedCopyInvoked |
| pypyrshell/steps/rm.py:44 | `RemoveParams(*rm_context)` unpacks the mapping's keys, so the path is the string "path" | `remove: {path: /tmp/a.txt}` unlinks "path" | `RemoveParams(**rm_context)`, giving the supplied path | high; not executed | Remove.SuppliedPathIgnored | Remove.IntendedUnlinksSuppliedPath |
| pypyrshell/steps/copytree.py:85 | `symlinks=params.follow_symlinks`: shutil keeps links when `symlinks` is true, so the default follow_symlinks=true does not follow links | `copy: {source: s, destination: d}` | `symlinks=not params.follow_symlinks` | medium; not executed | CopyTree.DefaultDoesNotFollowLinks | CopyTree.IntendedFollowsLinks |

`Run` in each module models the code as written. `CopyFile.RunIntended`,
`Remove.RunIntended` and `CopyTree.RunIntended` give the corrected behaviour.
