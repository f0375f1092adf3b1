/**
 * The crude module's types: a stored `Resource`, the genesis state, and the
 * genesis check that resource ids are distinct and below the resource count.
 *
 * The module's own parameters and their check are not part of this model: the
 * outcome of that check is an argument of `Validate`.
 */
module CrudeTypes {
  import opened Outcomes
  import opened FixedPoint

  /** A stored resource; `creator` is its owner's address. */
  datatype Resource = Resource(creator: string, id: Uint64, name: string, value: Uint64)

  /** The Go zero value of a resource. */
  const EmptyResource: Resource := Resource("", 0, "", 0)

  datatype GenesisState = GenesisState(resourceList: seq<Resource>, resourceCount: Uint64)

  datatype GenesisError = DuplicatedId | IdNotBelowCount | InvalidParams(reason: string)

  /** `DefaultGenesis`: no resources, and a count left at zero. */
  function DefaultGenesis(): (gs: GenesisState)
    ensures gs.resourceList == [] && gs.resourceCount == 0
  {
    GenesisState([], 0)
  }

  /** The ids of the resources in a list. */
  function IdsOf(list: seq<Resource>): set<Uint64>
  {
    set k | 0 <= k < |list| :: list[k].id
  }

  /** The first n resources have pairwise distinct ids, all below the count. */
  predicate Clean(list: seq<Resource>, count: Uint64, n: nat)
    requires n <= |list|
  {
    && (forall a, b :: 0 <= a < b < n ==> list[a].id != list[b].id)
    && (forall a :: 0 <= a < n ==> list[a].id < count)
  }

  /**
   * The check of the resource list from position i on, the ids before i having
   * been seen: a seen id is a duplicate, checked before the bound.
   */
  function ScanFrom(list: seq<Resource>, count: Uint64, i: nat): Outcome<GenesisError>
    requires i <= |list|
    decreases |list| - i
  {
    if i == |list| then Pass
    else if list[i].id in IdsOf(list[..i]) then Fail(DuplicatedId)
    else if list[i].id >= count then Fail(IdNotBelowCount)
    else ScanFrom(list, count, i + 1)
  }

  /** The outcome of `GenesisState.Validate`: the resource list's, then the parameters'. */
  function GenesisOutcome(gs: GenesisState, params: Outcome<GenesisError>): Outcome<GenesisError>
  {
    var listCheck := ScanFrom(gs.resourceList, gs.resourceCount, 0);
    if listCheck.Fail? then listCheck else params
  }

  lemma IdsOfExtend(list: seq<Resource>, i: nat)
    requires i < |list|
    ensures IdsOf(list[..i + 1]) == IdsOf(list[..i]) + {list[i].id}
  {
    var before, after := list[..i], list[..i + 1];
    assert forall k :: 0 <= k < i ==> after[k] == before[k];
    assert after[i] == list[i];
  }

  /**
   * `GenesisState.Validate`: walks the resource list with a map of the ids seen
   * so far, then defers to the parameters' check.
   */
  method Validate(gs: GenesisState, params: Outcome<GenesisError>) returns (r: Outcome<GenesisError>)
    ensures r == GenesisOutcome(gs, params)
  {
    var list := gs.resourceList;
    var resourceIdMap: map<Uint64, bool> := map[];
    var i := 0;
    while i < |list|
      invariant 0 <= i <= |list|
      invariant resourceIdMap.Keys == IdsOf(list[..i])
      invariant ScanFrom(list, gs.resourceCount, 0) == ScanFrom(list, gs.resourceCount, i)
    {
      var elem := list[i];
      if elem.id in resourceIdMap {
        return Fail(DuplicatedId);
      }
      if elem.id >= gs.resourceCount {
        return Fail(IdNotBelowCount);
      }
      IdsOfExtend(list, i);
      resourceIdMap := resourceIdMap[elem.id := true];
      i := i + 1;
    }
    return params;
  }

  /** With a clean prefix, the check from there on passes exactly when the whole list is clean. */
  lemma {:induction false} ScanFromPasses(list: seq<Resource>, count: Uint64, i: nat)
    requires i <= |list| && Clean(list, count, i)
    ensures ScanFrom(list, count, i).Pass? <==> Clean(list, count, |list|)
    decreases |list| - i
  {
    if i < |list| {
      var seen := IdsOf(list[..i]);
      if list[i].id in seen {
        var k :| 0 <= k < i && list[..i][k].id == list[i].id;
        assert list[k].id == list[i].id;
      } else if list[i].id >= count {
      } else {
        assert Clean(list, count, i + 1) by {
          forall a | 0 <= a < i
            ensures list[a].id != list[i].id
          {
            assert list[..i][a] == list[a];
          }
        }
        ScanFromPasses(list, count, i + 1);
      }
    }
  }

  /** The resource list passes exactly when its ids are pairwise distinct and below the count. */
  lemma ListPassesIff(gs: GenesisState)
    ensures ScanFrom(gs.resourceList, gs.resourceCount, 0).Pass?
            <==> Clean(gs.resourceList, gs.resourceCount, |gs.resourceList|)
  {
    ScanFromPasses(gs.resourceList, gs.resourceCount, 0);
  }

  /** Over a clean prefix the check reaches the first unclean position unchanged. */
  lemma {:induction false} ScanSkipsCleanPrefix(list: seq<Resource>, count: Uint64, i: nat, j: nat)
    requires i <= j <= |list| && Clean(list, count, j)
    ensures ScanFrom(list, count, i) == ScanFrom(list, count, j)
    decreases j - i
  {
    if i < j {
      ScanSkipsCleanPrefix(list, count, i + 1, j);
    }
  }

  /**
   * The error reported is that of the first offending resource: a duplicate if
   * an earlier resource has its id, otherwise an id not below the count.
   */
  lemma FirstOffenderReported(gs: GenesisState, j: nat)
    requires j < |gs.resourceList|
    requires Clean(gs.resourceList, gs.resourceCount, j)
    requires !Clean(gs.resourceList, gs.resourceCount, j + 1)
    ensures GenesisOutcome(gs, Pass) ==
              if exists a :: 0 <= a < j && gs.resourceList[a].id == gs.resourceList[j].id
              then Fail(DuplicatedId) else Fail(IdNotBelowCount)
  {
    var list, count := gs.resourceList, gs.resourceCount;
    ScanSkipsCleanPrefix(list, count, 0, j);
    if exists a :: 0 <= a < j && list[a].id == list[j].id {
      var a :| 0 <= a < j && list[a].id == list[j].id;
      assert list[..j][a] == list[a];
    }
  }

  /** The default genesis state is valid whenever its parameters are. */
  lemma DefaultGenesisValid(params: Outcome<GenesisError>)
    ensures GenesisOutcome(DefaultGenesis(), params) == params
  {
  }

  /** Ids 0 and 1 with a count of 2 are valid. */
  lemma TwoResourcesValid()
    ensures GenesisOutcome(GenesisState([EmptyResource.(id := 0), EmptyResource.(id := 1)], 2), Pass) == Pass
  {
    var list := [EmptyResource.(id := 0), EmptyResource.(id := 1)];
    assert list[..0] == [] && list[..1] == [list[0]];
    assert IdsOf(list[..1]) == {0};
    assert ScanFrom(list, 2, 1) == ScanFrom(list, 2, 2) == Pass;
  }

  /**
   * Two resources with id 0 and the count left at zero are rejected, for the
   * bound: the first resource already fails it, before any duplicate is seen.
   */
  lemma DuplicateWithZeroCountFailsOnBound()
    ensures GenesisOutcome(GenesisState([EmptyResource, EmptyResource], 0), Pass) == Fail(IdNotBelowCount)
  {
    var list := [EmptyResource, EmptyResource];
    assert list[..0] == [];
  }

  /** Two resources with id 0 under a positive count are rejected as duplicates. */
  lemma DuplicateRejected(count: Uint64)
    requires count > 0
    ensures GenesisOutcome(GenesisState([EmptyResource, EmptyResource], count), Pass) == Fail(DuplicatedId)
  {
    var list := [EmptyResource, EmptyResource];
    assert list[..0] == [] && list[..1] == [list[0]];
    assert IdsOf(list[..1]) == {0};
    assert ScanFrom(list, count, 0) == ScanFrom(list, count, 1);
  }

  /** A single resource with id 1 under a count of 0 is rejected for the bound. */
  lemma IdAtOrAboveCountRejected()
    ensures GenesisOutcome(GenesisState([EmptyResource.(id := 1)], 0), Pass) == Fail(IdNotBelowCount)
  {
    var list := [EmptyResource.(id := 1)];
    assert list[..0] == [];
  }
}
