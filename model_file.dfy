/**
 * The `ModelFile` record of model-file.ts: the raw record the backend sends, the
 * immutable node built from it, the recursive construction as a function, and the
 * JavaScript `props` object that the constructor rewrites in place.
 */
module ModelFiles {
  import opened Wrappers
  import opened FileState

  /**
   * A record as the backend sends it. On the wire the fields are named `name`,
   * `local_size`, `remote_size`, `state` and `children`; `None` is a field that is
   * absent or `null`.
   */
  datatype RawRecord = RawRecord(
    name: Option<string>,
    localSize: Option<int>,
    remoteSize: Option<int>,
    state: Option<string>,
    children: RawChildren)

  /** The `children` field of a raw record: absent or `null`, or a list of records. */
  datatype RawChildren = Missing | Listed(records: seq<RawRecord>)

  /** `DefaultModelFile`: every one of the five keys defaults to `null`. */
  const DefaultModelFile: RawRecord := RawRecord(None, None, None, None, Missing)

  /**
   * A constructed `ModelFile` record. `state` is `None` when the wire token named no
   * member of the enum; `children` holds the constructed children in input order.
   */
  datatype ModelFile = ModelFile(
    name: Option<string>,
    localSize: Option<int>,
    remoteSize: Option<int>,
    state: Option<State>,
    children: seq<ModelFile>)

  /**
   * The two ways the constructor throws: `for...of` over a `children` that is absent
   * or `null`, and `.toUpperCase()` on a `state` that is absent or `null`.
   */
  datatype Fault = ChildrenNotIterable | StateNotString

  /** The number of nodes in a raw tree, a record with no children list counting as a leaf. */
  function Size(r: RawRecord): nat {
    1 + match r.children
        case Missing => 0
        case Listed(cs) => SizeAll(cs)
  }

  function SizeAll(cs: seq<RawRecord>): nat {
    if cs == [] then 0 else SizeAll(cs[..|cs| - 1]) + Size(cs[|cs| - 1])
  }

  /** The number of nodes in a constructed tree. */
  function NodeCount(m: ModelFile): nat {
    1 + NodeCountAll(m.children)
  }

  function NodeCountAll(ms: seq<ModelFile>): nat {
    if ms == [] then 0 else NodeCountAll(ms[..|ms| - 1]) + NodeCount(ms[|ms| - 1])
  }

  /** A key that `props` leaves `null` or absent takes its value from `DefaultModelFile`. */
  function Supplied<T>(given: Option<T>, default: Option<T>): Option<T> {
    if given.Some? then given else default
  }

  /** `ModelFileRecord(props)`: the record over the rewritten props, defaults filling the gaps. */
  function NewRecord(name: Option<string>, localSize: Option<int>, remoteSize: Option<int>,
                     state: Option<State>, children: seq<ModelFile>): ModelFile
  {
    ModelFile(Supplied(name, DefaultModelFile.name),
              Supplied(localSize, DefaultModelFile.localSize),
              Supplied(remoteSize, DefaultModelFile.remoteSize),
              state, children)
  }

  /**
   * `new ModelFile(props)` on a value: build every child in order (the first child
   * that throws aborts the construction), then map the state token.
   */
  function Build(r: RawRecord): (res: Result<ModelFile, Fault>)
    ensures r.children.Missing? ==> res == Failure(ChildrenNotIterable)
    ensures res.Success? ==>
              && r.children.Listed? && r.state.Some?
              && res.value.name == r.name
              && res.value.localSize == r.localSize
              && res.value.remoteSize == r.remoteSize
              && res.value.state == ParseState(r.state.value)
              && |res.value.children| == |r.children.records|
  {
    match r.children
    case Missing => Failure(ChildrenNotIterable)
    case Listed(cs) =>
      match BuildAll(cs)
      case Failure(e) => Failure(e)
      case Success(ms) =>
        match r.state
        case None => Failure(StateNotString)
        case Some(token) => Success(NewRecord(r.name, r.localSize, r.remoteSize, ParseState(token), ms))
  }

  /** The constructor's loop over `props.children`, as a function of the records seen so far. */
  function BuildAll(cs: seq<RawRecord>): (res: Result<seq<ModelFile>, Fault>)
    ensures res.Success? ==> |res.value| == |cs|
  {
    if cs == [] then Success([])
    else
      match BuildAll(cs[..|cs| - 1])
      case Failure(e) => Failure(e)
      case Success(ms) =>
        match Build(cs[|cs| - 1])
        case Failure(e) => Failure(e)
        case Success(m) => Success(ms + [m])
  }

  /** Every record of a children list is smaller than the whole list. */
  lemma {:induction false} SizeAllBound(cs: seq<RawRecord>, i: nat)
    requires i < |cs|
    ensures Size(cs[i]) <= SizeAll(cs)
  {
    if i < |cs| - 1 {
      SizeAllBound(cs[..|cs| - 1], i);
    }
  }

  /** Once a prefix of the children fails, the whole list fails with the same fault. */
  lemma {:induction false} BuildAllPrefixFailure(cs: seq<RawRecord>, k: nat)
    requires k <= |cs| && BuildAll(cs[..k]).Failure?
    ensures BuildAll(cs) == BuildAll(cs[..k])
  {
    if k < |cs| {
      var init := cs[..|cs| - 1];
      assert init[..k] == cs[..k];
      BuildAllPrefixFailure(init, k);
    } else {
      assert cs[..k] == cs;
    }
  }

  /** The slot of `props.state`: the wire token before the rewrite, the enum value after. */
  datatype StateSlot = Unmapped(token: Option<string>) | Mapped(value: Option<State>)

  /** The slot of `props.children`: the raw records before the rewrite, the built nodes after. */
  datatype ChildrenSlot = Records(records: RawChildren) | Nodes(nodes: seq<ModelFile>)

  /** The plain JavaScript object handed to the `ModelFile` constructor. */
  class Props {
    var name: Option<string>
    var localSize: Option<int>
    var remoteSize: Option<int>
    var state: StateSlot
    var children: ChildrenSlot

    /** A props object is raw until the constructor has rewritten it. */
    predicate IsRaw()
      reads this
    {
      state.Unmapped? && children.Records?
    }

    /** The raw record a raw props object holds. */
    function Raw(): RawRecord
      reads this
      requires IsRaw()
    {
      RawRecord(name, localSize, remoteSize, state.token, children.records)
    }

    /** A props object as parsed from the backend's JSON. */
    constructor (r: RawRecord)
      ensures IsRaw() && Raw() == r
    {
      name, localSize, remoteSize := r.name, r.localSize, r.remoteSize;
      state := Unmapped(r.state);
      children := Records(r.children);
    }

    /**
     * The body of `new ModelFile(this)`: builds every child in order, replaces
     * `children` by the built nodes, replaces `state` by the mapped value, and returns
     * the record. It throws where `Build` fails; a child's fault leaves this object
     * as it was, a missing state token leaves the `children` rewrite in place.
     */
    method Construct() returns (r: Result<ModelFile, Fault>)
      requires IsRaw()
      modifies this
      decreases Size(Raw())
      ensures r == Build(old(Raw()))
      ensures name == old(name) && localSize == old(localSize) && remoteSize == old(remoteSize)
      ensures children == match old(children.records)
                          case Missing => old(children)
                          case Listed(cs) =>
                            if BuildAll(cs).Success? then Nodes(BuildAll(cs).value) else old(children)
      ensures state == if r.Success? then Mapped(r.value.state) else old(state)
    {
      ghost var raw := Raw();
      if children.records.Missing? {
        return Failure(ChildrenNotIterable);
      }
      var records := children.records.records;
      var built: seq<ModelFile> := [];
      for i := 0 to |records|
        invariant BuildAll(records[..i]) == Success(built)
        invariant unchanged(this)
      {
        SizeAllBound(records, i);
        var childProps := new Props(records[i]);
        var child := childProps.Construct();
        assert records[..i + 1][..i] == records[..i];
        if child.Failure? {
          BuildAllPrefixFailure(records, i + 1);
          return Failure(child.error);
        }
        built := built + [child.value];
      }
      assert records[..|records|] == records;
      children := Nodes(built);
      if state.token.None? {
        return Failure(StateNotString);
      }
      state := Mapped(ParseState(state.token.value));
      r := Success(NewRecord(name, localSize, remoteSize, state.value, children.nodes));
    }
  }
}
