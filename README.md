# ModelFile: the file tree model of seedsync's web front end

The seedsync front end receives, from its backend, a tree of files and directories as
JSON: each record carries `name`, `local_size`, `remote_size`, a `state` token and a
list of `children` records. `ModelFile` (src/angular/src/app/model-file.ts) turns such
a record into an immutable record node. Its constructor converts every raw child into
a `ModelFile` by a recursive `new ModelFile(child)`, pushed into a local array in
iteration order. It then writes that array back into the `props` object it was given,
looks the state token up case-insensitively in the `ModelFile.State` enum (`DEFAULT`,
`QUEUED`, `DOWNLOADING`), writes the result into `props.state`, and builds the record
from the rewritten `props`. Keys missing from `props` take the `DefaultModelFile` value,
which is `null` for all five keys.

The model has four files:

- `wrappers.dfy`: `Option` (absent, `null` or `undefined` is `None`) and `Result`
  (a value, or the fault the JavaScript code would throw).
- `state.dfy` (module `FileState`): the enum. It includes the run-time enum object with
  its reverse keys, ASCII upper-casing, and the lookup `ParseState`.
- `model_file.dfy` (module `ModelFiles`): the raw record, the `ModelFile` record and
  the two ways the constructor throws. `Build`/`BuildAll` are the construction as
  recursive functions. The class `Props` is the mutable `props` object; its method
  `Construct` mirrors the constructor's loop and its two in-place writes, and is
  proved equal to `Build`.
- `model_file_lemmas.dfy` (module `ModelFileProofs`): `Constructs` is a node-by-node
  reference relation and `Complete` says which trees construct. The lemmas relate
  both to `Build`.

The code validates less than its declared types suggest, and the model follows the code:

- An unknown state token (for example "paused") is not an error. The enum lookup
  yields `undefined`, modelled as `None`.
- Sizes are never checked, so negative sizes pass. Sibling names are never compared,
  so duplicates pass. Missing `name` or size fields are not errors either; they take
  the `null` default.
- For records of the modelled shape, the only failures are the TypeErrors the code
  runs into: iterating a `children` that is `null` or absent, and upper-casing a
  `state` that is `null` or absent. The children are processed first, so a fault in
  any descendant wins over the node's own missing state.
- `children` is declared as an immutable `Set`, but the constructor stores a plain
  array in input order. The model keeps a sequence in input order.
- The input `props` is rewritten in place: `children` and `state` are replaced.
  When the state token is missing, `children` has already been replaced before the
  throw.

## Model

| member | source | states |
|---|---|---|
| FileState.ToUpper | src/angular/src/app/model-file.ts:47 | `toUpperCase` keeps the length and upper-cases every character independently (ASCII letters only) |
| FileState.ParseState | src/angular/src/app/model-file.ts:47 | looking the upper-cased token up in `EnumObject` (the emitted enum object, reverse keys included) yields the member whose declared key equals the upper-cased token, and `None` exactly when no key equals it |
| FileState.KeyIsUpperToken | src/angular/src/app/model-file.ts:55-59 | each member's wire value, upper-cased, is its declared key |
| FileState.ToUpperEqualIff | src/angular/src/app/model-file.ts:47 | two tokens upper-case to the same string iff they are equal up to letter case |
| FileState.ReverseKeysUnreachable | src/angular/src/app/model-file.ts:47 | an upper-cased token never hits one of `EnumObject`'s reverse keys ("default", "queued", "downloading"), so the lookup yields a member or `undefined` |
| FileState.ParseStateIgnoresCase | src/angular/src/app/model-file.ts:47 | the lookup yields member `s` iff the token equals `s`'s wire value up to letter case, in both directions |
| FileState.UnknownTokenHasNoState | src/angular/src/app/model-file.ts:47 | the lookup yields `undefined` (no exception) iff the token is no casing of any of the three wire values |
| FileState.ParseStateCaseInvariant | src/angular/src/app/model-file.ts:47 | tokens that differ only in letter case map to the same state |
| FileState.ParseStateIsKeyLookup | src/angular/src/app/model-file.ts:47 | the lookup yields member `s` iff the upper-cased token is exactly `s`'s declared key, in both directions |
| FileState.MixedCaseTokenExample | src/angular/src/app/model-file.ts:47 | the mixed-case token "Queued" maps to `QUEUED` |
| FileState.ParseStateRoundTrip | src/angular/src/app/model-file.ts:55-59 | each member is recovered from its wire value and from its key |
| ModelFiles.Supplied | src/angular/src/app/model-file.ts:23 | a key the props leave `null` or absent takes the record default; a supplied value is kept |
| ModelFiles.NewRecord | src/angular/src/app/model-file.ts:49 | `super(props)`: the `ModelFile` record over the rewritten props, each of `name`, `local_size`, `remote_size` filled from `DefaultModelFile` when not supplied |
| ModelFiles.Build | src/angular/src/app/model-file.ts:38-50 | a record without a children list throws `ChildrenNotIterable`; a successful build had a children list and a state token, copies `name`, `local_size` and `remote_size`, maps the token with `ParseState`, and has one child per record |
| ModelFiles.BuildAll | src/angular/src/app/model-file.ts:40-43 | a successful child loop returns exactly one node per child record |
| ModelFiles.SizeAllBound | src/angular/src/app/model-file.ts:41-42 | every child record is part of its parent's list, so the recursive construction terminates |
| ModelFiles.BuildAllPrefixFailure | src/angular/src/app/model-file.ts:41-42 | once a child throws, the remaining children do not change the outcome: the whole loop throws that fault |
| ModelFiles.Props.constructor | src/angular/src/app/model-file.ts:38 | a props object holds exactly the fields of the raw record it was parsed from |
| ModelFiles.Props.Construct | src/angular/src/app/model-file.ts:38-50 | the constructor returns `Build` of the raw record; it leaves `name`, `local_size` and `remote_size` untouched; it replaces `children` by the built nodes once all children succeed, and replaces `state` by the mapped value once construction succeeds; a child's fault leaves the object as it was |
| ModelFileProofs.BuildAllPointwise | src/angular/src/app/model-file.ts:40-43 | the child loop succeeds iff every child does, and then returns exactly one node per child, in input order, each the construction of that child |
| ModelFileProofs.BuildAllFirstFailure | src/angular/src/app/model-file.ts:41-42 | when the loop throws, it throws the fault of the first child that throws, every earlier child having succeeded |
| ModelFileProofs.BuildAllAppend | src/angular/src/app/model-file.ts:41-42 | one more child record appends its node at the end, or makes the loop throw that child's fault |
| ModelFileProofs.BuildMeetsConstructs | src/angular/src/app/model-file.ts:38-50 | construction yields `m` iff, at every depth, `m` copies the scalar fields, maps the state token, and has one child per record in order; both directions |
| ModelFileProofs.BuildSucceedsIffComplete | src/angular/src/app/model-file.ts:41-47 | construction throws iff some node at some depth has no children list or no state token; nothing else is validated |
| ModelFileProofs.BuildPreservesNodeCount | src/angular/src/app/model-file.ts:41-42 | the built tree has as many nodes as the raw tree |
| ModelFileProofs.BuildAllPreservesNodeCount | src/angular/src/app/model-file.ts:40-43 | the built children together have as many nodes as the raw children |
| ModelFileProofs.BuildCopiesFields | src/angular/src/app/model-file.ts:38-49 | `name`, `local_size` and `remote_size` are copied unchanged, the state is the lookup of the token, and there are as many children as records |
| ModelFileProofs.BuildEmptyChildren | src/angular/src/app/model-file.ts:40-44 | an empty children list yields a node with empty children |
| ModelFileProofs.MissingFieldsTakeDefaults | src/angular/src/app/model-file.ts:16-23 | a `name`, `local_size` or `remote_size` the record does not supply is the value of the constant `DefaultModelFile` (lines 16-22), which is `null` |
| ModelFileProofs.MissingChildrenThrowsFirst | src/angular/src/app/model-file.ts:41 | a record without a children list throws on the loop, before its state is looked at |
| ModelFileProofs.QueuedRootExample | src/angular/src/app/model-file.ts:38-50 | a root with token "Queued" and one child "a.txt" with token "default" becomes a `QUEUED` root with one `DEFAULT` child, sizes copied |
| ModelFileProofs.UnknownStateExample | src/angular/src/app/model-file.ts:47 | the token "paused" gives a node whose state is `undefined`; nothing is thrown |
| ModelFileProofs.BuildIgnoresScalars | src/angular/src/app/model-file.ts:38-50 | the outcome never depends on `name`, `local_size` or `remote_size`, so negative sizes are accepted |
| ModelFileProofs.DuplicateNamesAccepted | src/angular/src/app/model-file.ts:40-44 | two identical sibling records, same name included, are both built and kept in order |

## Left out

- immutable.js itself (`Record`, `Set`): value equality, hashing, structural sharing and
  the enforcement of immutability are library behaviour. Datatype values in the model
  are immutable and compared by value, children included. The source stores the
  children as a plain array, which immutable.js compares by identity, so two trees
  built separately are never equal there; the model does not capture that.
- The rewrite of each child's own `props` object: children are modelled as values. Each
  recursive construction works on a fresh `Props`, not on the caller's nested objects,
  so aliasing between input records is not modelled either.
- `null` and `undefined` are both `None`. An unmatched state is stored as `undefined`
  and a missing key reads as the `null` default, and the model does not tell them apart.
- Dynamic typing: fields of the wrong JavaScript type, such as a numeric `state` or a
  string `children`, are outside the model, and so is a `null` entry inside a
  `children` list, which throws when its own constructor reads `props.children`. Sizes are unbounded integers, not
  floating-point numbers.
- FileState.ToUpper: upper-cases ASCII letters only; JavaScript's full Unicode case
  mapping is not modelled. This changes a lookup result for dotless 'ı' (U+0131),
  which JavaScript upper-cases to 'I': "downloadıng" maps to `DOWNLOADING` in the
  source but to `None` in the model. FileState.ParseStateIgnoresCase and
  FileState.UnknownTokenHasNoState are statements about ASCII letter case only.
- The Angular application around this file, HTTP fetching of the tree and rendering are
  not part of this model.
