/** What the construction of a `ModelFile` tree guarantees. */
module ModelFileProofs {
  import opened Wrappers
  import opened FileState
  import opened ModelFiles

  /**
   * The relation between a raw record and the node built from it, stated node by
   * node: the scalar fields are copied, the state token is looked up, and the
   * children correspond one to one and in order.
   */
  ghost predicate Constructs(r: RawRecord, m: ModelFile) {
    && r.children.Listed?
    && r.state.Some?
    && m.name == r.name
    && m.localSize == r.localSize
    && m.remoteSize == r.remoteSize
    && m.state == ParseState(r.state.value)
    && |m.children| == |r.children.records|
    && forall i :: 0 <= i < |m.children| ==> Constructs(r.children.records[i], m.children[i])
  }

  /** A raw tree on which construction does not throw: every node has a children list and a state token. */
  ghost predicate Complete(r: RawRecord) {
    && r.children.Listed?
    && r.state.Some?
    && forall i :: 0 <= i < |r.children.records| ==> Complete(r.children.records[i])
  }

  /** The children loop succeeds exactly when every child does, and keeps their order. */
  lemma {:induction false} BuildAllPointwise(cs: seq<RawRecord>)
    ensures BuildAll(cs).Success? <==> forall i :: 0 <= i < |cs| ==> Build(cs[i]).Success?
    ensures BuildAll(cs).Success? ==>
              |BuildAll(cs).value| == |cs| &&
              forall i :: 0 <= i < |cs| ==> Build(cs[i]) == Success(BuildAll(cs).value[i])
  {
    if cs != [] {
      var init := cs[..|cs| - 1];
      BuildAllPointwise(init);
      assert forall i :: 0 <= i < |init| ==> init[i] == cs[i];
    }
  }

  /** When the loop throws, it throws the fault of the first child that fails, all earlier children having succeeded. */
  lemma {:induction false} BuildAllFirstFailure(cs: seq<RawRecord>)
    requires BuildAll(cs).Failure?
    ensures exists k :: 0 <= k < |cs| && Build(cs[k]) == Failure(BuildAll(cs).error) &&
                        forall j :: 0 <= j < k ==> Build(cs[j]).Success?
  {
    var init := cs[..|cs| - 1];
    if BuildAll(init).Failure? {
      BuildAllFirstFailure(init);
      var k :| 0 <= k < |init| && Build(init[k]) == Failure(BuildAll(init).error) &&
               forall j :: 0 <= j < k ==> Build(init[j]).Success?;
      assert forall j :: 0 <= j <= k ==> init[j] == cs[j];
    } else {
      BuildAllPointwise(init);
      assert forall j :: 0 <= j < |init| ==> init[j] == cs[j];
      assert Build(cs[|cs| - 1]) == Failure(BuildAll(cs).error);
    }
  }

  /** Construction yields `m` exactly when `m` corresponds to the record at every depth. */
  lemma {:induction false} BuildMeetsConstructs(r: RawRecord, m: ModelFile)
    ensures Build(r) == Success(m) <==> Constructs(r, m)
  {
    if r.children.Listed? {
      var cs := r.children.records;
      BuildAllPointwise(cs);
      if Build(r) == Success(m) {
        forall i | 0 <= i < |cs| ensures Constructs(cs[i], m.children[i]) {
          BuildMeetsConstructs(cs[i], m.children[i]);
        }
      }
      if Constructs(r, m) {
        forall i | 0 <= i < |cs| ensures Build(cs[i]) == Success(m.children[i]) {
          BuildMeetsConstructs(cs[i], m.children[i]);
        }
        assert BuildAll(cs).value == m.children;
      }
    }
  }

  /** Construction throws exactly when some node at some depth lacks a children list or a state token. */
  lemma {:induction false} BuildSucceedsIffComplete(r: RawRecord)
    ensures Build(r).Success? <==> Complete(r)
  {
    if r.children.Listed? {
      var cs := r.children.records;
      BuildAllPointwise(cs);
      forall i | 0 <= i < |cs| ensures Build(cs[i]).Success? <==> Complete(cs[i]) {
        BuildSucceedsIffComplete(cs[i]);
      }
    }
  }

  /** The built tree has as many nodes as the raw tree. */
  lemma {:induction false} BuildPreservesNodeCount(r: RawRecord)
    requires Build(r).Success?
    ensures NodeCount(Build(r).value) == Size(r)
  {
    BuildAllPreservesNodeCount(r.children.records);
  }

  lemma {:induction false} BuildAllPreservesNodeCount(cs: seq<RawRecord>)
    requires BuildAll(cs).Success?
    ensures NodeCountAll(BuildAll(cs).value) == SizeAll(cs)
  {
    if cs != [] {
      var init := cs[..|cs| - 1];
      var ms := BuildAll(cs).value;
      BuildAllPreservesNodeCount(init);
      BuildPreservesNodeCount(cs[|cs| - 1]);
      assert ms[..|ms| - 1] == BuildAll(init).value;
    }
  }

  /**
   * One call copies `name`, `local_size` and `remote_size` unchanged, maps the state
   * token, and yields as many children as the record lists.
   */
  lemma BuildCopiesFields(r: RawRecord)
    requires Build(r).Success?
    ensures Build(r).value.name == r.name
    ensures Build(r).value.localSize == r.localSize
    ensures Build(r).value.remoteSize == r.remoteSize
    ensures Build(r).value.state == ParseState(r.state.value)
    ensures |Build(r).value.children| == |r.children.records|
  {
    BuildAllPointwise(r.children.records);
  }

  /** A record with an empty children list yields a node with no children. */
  lemma BuildEmptyChildren(r: RawRecord)
    requires r.children == Listed([]) && r.state.Some?
    ensures Build(r) == Success(ModelFile(r.name, r.localSize, r.remoteSize, ParseState(r.state.value), []))
  {
  }

  /** Appending a record to the children list appends its node, or throws its fault. */
  lemma BuildAllAppend(cs: seq<RawRecord>, c: RawRecord)
    requires BuildAll(cs).Success?
    ensures BuildAll(cs + [c]) == match Build(c)
                                  case Success(m) => Success(BuildAll(cs).value + [m])
                                  case Failure(e) => Failure(e)
  {
    assert (cs + [c])[..|cs|] == cs;
  }

  /** A field the record leaves `null` or absent holds the `DefaultModelFile` value, which is `null`. */
  lemma MissingFieldsTakeDefaults(r: RawRecord)
    requires Build(r).Success?
    ensures r.name.None? ==> Build(r).value.name == DefaultModelFile.name == None
    ensures r.localSize.None? ==> Build(r).value.localSize == DefaultModelFile.localSize == None
    ensures r.remoteSize.None? ==> Build(r).value.remoteSize == DefaultModelFile.remoteSize == None
  {
  }

  /** A record with no children list throws before its state is looked at. */
  lemma MissingChildrenThrowsFirst(r: RawRecord)
    requires r.children.Missing?
    ensures Build(r) == Failure(ChildrenNotIterable)
  {
  }

  /** A root in state "Queued" with one finished child "a.txt" in state "default". */
  lemma QueuedRootExample()
    ensures
      var leaf := RawRecord(Some("a.txt"), Some(100), Some(100), Some("default"), Listed([]));
      var root := RawRecord(Some("root"), Some(0), Some(100), Some("Queued"), Listed([leaf]));
      Build(root) == Success(ModelFile(Some("root"), Some(0), Some(100), Some(Queued),
                              [ModelFile(Some("a.txt"), Some(100), Some(100), Some(Default), [])]))
  {
    var leaf := RawRecord(Some("a.txt"), Some(100), Some(100), Some("default"), Listed([]));
    var node := ModelFile(Some("a.txt"), Some(100), Some(100), Some(Default), []);
    MixedCaseTokenExample();
    assert Build(leaf) == Success(node) by {
      ParseStateRoundTrip(Default);
      BuildEmptyChildren(leaf);
    }
    assert BuildAll([leaf]) == Success([node]) by {
      var cs := [leaf];
      assert cs[..0] == [] && cs[0] == leaf;
      assert BuildAll(cs[..0]) == Success([]);
      assert BuildAll(cs) == Success([] + [node]);
      assert [] + [node] == [node];
    }
  }

  /** An unknown token such as "paused" gives a node without a state; nothing is thrown. */
  lemma UnknownStateExample()
    ensures
      var r := RawRecord(Some("f"), Some(0), Some(0), Some("paused"), Listed([]));
      Build(r) == Success(ModelFile(Some("f"), Some(0), Some(0), None, []))
  {
    UnknownTokenHasNoState("paused");
  }

  /**
   * Construction never inspects `name`, `local_size` or `remote_size`: whatever they
   * hold, negative sizes included, the outcome is the same apart from those fields.
   */
  lemma BuildIgnoresScalars(r: RawRecord, name: Option<string>, localSize: Option<int>, remoteSize: Option<int>)
    ensures Build(r.(name := name, localSize := localSize, remoteSize := remoteSize)) ==
            match Build(r)
            case Success(m) => Success(m.(name := name, localSize := localSize, remoteSize := remoteSize))
            case Failure(e) => Failure(e)
  {
  }

  /** Siblings that share a name are accepted: both are built and kept, in order. */
  lemma DuplicateNamesAccepted(r: RawRecord, x: RawRecord)
    requires r.children == Listed([x, x]) && r.state.Some? && Build(x).Success?
    ensures Build(r).Success?
    ensures Build(r).value.children == [Build(x).value, Build(x).value]
  {
    BuildAllPointwise([x, x]);
  }
}
