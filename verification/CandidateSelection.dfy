/** The minimum-cover search of the execution protocol (src/general_execution/execution_protocol.py). */
module CandidateSelection {
  import opened Canonical
  import opened Ordering

  datatype CapabilityProjection = CapabilityProjection(
    candidateId: string, capabilityIds: seq<string>, projectionId: string, registryRevisionDigest: string,
    authorityRefDigest: string, costRank: nat)

  type Projections = seq<CapabilityProjection>

  datatype SelectionError = DuplicateCandidates | NotOneProjection | ProjectionMismatch

  function Capabilities(combo: Projections): set<string> {
    set c <- combo, k <- c.capabilityIds :: k
  }

  function Ids(combo: Projections): (r: seq<string>)
    ensures |r| == |combo| && forall i | 0 <= i < |combo| :: r[i] == combo[i].candidateId
  {
    seq(|combo|, i requires 0 <= i < |combo| => combo[i].candidateId)
  }

  function Cost(combo: Projections): nat {
    if combo == [] then 0 else combo[0].costRank + Cost(combo[1..])
  }

  const CANDIDATE_ORDER: (CapabilityProjection, CapabilityProjection) -> bool :=
    (a: CapabilityProjection, b: CapabilityProjection) => Before(a.candidateId, b.candidateId)

  predicate DistinctIds(candidates: Projections) {
    forall i, j | 0 <= i < j < |candidates| :: candidates[i].candidateId != candidates[j].candidateId
  }

  predicate OneProjection(candidates: Projections) {
    && candidates != []
    && forall c <- candidates ::
         && c.projectionId == candidates[0].projectionId
         && c.registryRevisionDigest == candidates[0].registryRevisionDigest
         && c.authorityRefDigest == candidates[0].authorityRefDigest
  }

  // ---------------------------------------------------------------- what is to be computed

  /** A selection is an id-sorted sequence of candidates. */
  ghost predicate Covers(required: set<string>, candidates: Projections, selection: Projections) {
    && SortedBy(CANDIDATE_ORDER, selection)
    && (forall c <- selection :: c in candidates)
    && required <= Capabilities(selection)
  }

  /** Fewer candidates, then lower total cost, then the smaller id tuple. */
  predicate NoWorse(a: Projections, b: Projections) {
    || |a| < |b|
    || (|a| == |b| && (Cost(a) < Cost(b) || (Cost(a) == Cost(b) && !TupleBefore(Ids(b), Ids(a)))))
  }

  ghost predicate Best(required: set<string>, candidates: Projections, selection: Projections) {
    && Covers(required, candidates, selection)
    && forall other | Covers(required, candidates, other) :: NoWorse(selection, other)
  }

  ghost predicate Answers(required: set<string>, candidates: Projections, selection: Projections, uncovered: seq<string>) {
    if exists s :: Covers(required, candidates, s) then Best(required, candidates, selection) && uncovered == []
    else selection == [] && uncovered == Sorted(required - Capabilities(candidates))
  }

  // ---------------------------------------------------------------- combinations and sorting

  function Prepended(c: CapabilityProjection, lists: seq<Projections>): (r: seq<Projections>)
    ensures |r| == |lists| && forall i | 0 <= i < |lists| :: r[i] == [c] + lists[i]
  {
    seq(|lists|, i requires 0 <= i < |lists| => [c] + lists[i])
  }

  /** `itertools.combinations` in its own order */
  function Combinations(candidates: Projections, size: nat): seq<Projections> {
    if size == 0 then [[]]
    else if candidates == [] then []
    else Prepended(candidates[0], Combinations(candidates[1..], size - 1)) + Combinations(candidates[1..], size)
  }

  function ById(combo: Projections): Projections { SortBy(CANDIDATE_ORDER, combo) }

  predicate KeyBefore(a: Projections, b: Projections) {
    || Cost(a) < Cost(b)
    || (Cost(a) == Cost(b) && TupleBefore(Ids(ById(a)), Ids(ById(b))))
  }

  method SelectCandidates(requiredCapabilities: seq<string>, candidates: Projections, expectedProjectionId: Option<string>,
                          expectedRegistryRevisionDigest: Option<string>, expectedAuthorityRefDigest: Option<string>)
    returns (r: Result<(Projections, seq<string>), SelectionError>)
    ensures r == Failure(DuplicateCandidates) <==> requiredCapabilities != [] && !DistinctIds(candidates)
    ensures r == Failure(NotOneProjection)
       <==> requiredCapabilities != [] && DistinctIds(candidates) && !OneProjection(candidates)
    ensures r == Failure(ProjectionMismatch)
       <==> requiredCapabilities != [] && DistinctIds(candidates) && OneProjection(candidates)
            && (expectedProjectionId, expectedRegistryRevisionDigest, expectedAuthorityRefDigest)
               != (Some(candidates[0].projectionId), Some(candidates[0].registryRevisionDigest),
                   Some(candidates[0].authorityRefDigest))
    ensures r.Success? ==> Answers((set k | k in requiredCapabilities), candidates, r.value.0, r.value.1)
  {
    var required := set k | k in requiredCapabilities;
    assert requiredCapabilities != [] ==> requiredCapabilities[0] in required;
    if required == {} {
      NothingRequired(candidates);
      return Success(([], []));
    }
    if !DistinctIds(candidates) {
      return Failure(DuplicateCandidates);
    }
    if !OneProjection(candidates) {
      return Failure(NotOneProjection);
    }
    if || expectedProjectionId != Some(candidates[0].projectionId)
       || expectedRegistryRevisionDigest != Some(candidates[0].registryRevisionDigest)
       || expectedAuthorityRefDigest != Some(candidates[0].authorityRefDigest)
    {
      return Failure(ProjectionMismatch);
    }
    hide Combinations, Capabilities, KeyBefore, Answers, DistinctIds, OneProjection;
    var covering, size := SmallestCovering(required, candidates);
    if covering == [] {
      NothingCovers(required, candidates);
      return Success(([], Sorted(required - Capabilities(candidates))));
    }
    var selected := MinByKey(covering);
    SmallestKeyIsBest(required, candidates, size, selected);
    return Success((ById(selected), []));
  }

  /** The search loop: all covering combinations of the smallest size that has any */
  method SmallestCovering(required: set<string>, candidates: Projections) returns (covering: seq<Projections>, ghost size: nat)
    ensures covering == [] ==> forall k | 1 <= k <= |candidates| :: NoneCovers(required, Combinations(candidates, k))
    ensures covering != [] ==>
              && (forall k | 1 <= k < size :: NoneCovers(required, Combinations(candidates, k)))
              && (forall c :: c in covering <==> c in Combinations(candidates, size) && required <= Capabilities(c))
  {
    hide Combinations, Capabilities;
    covering := [];
    size := 0;
    for s := 1 to |candidates| + 1
      invariant covering == []
      invariant forall k | 1 <= k < s :: NoneCovers(required, Combinations(candidates, k))
    {
      var combos := Combinations(candidates, s);
      for i := 0 to |combos|
        invariant forall c <- covering :: c in combos && required <= Capabilities(c)
        invariant forall j | 0 <= j < i :: required <= Capabilities(combos[j]) ==> combos[j] in covering
      {
        if required <= Capabilities(combos[i]) {
          covering := covering + [combos[i]];
        }
      }
      if covering != [] {
        size := s;
        break;
      }
    }
  }

  /** `min` by cost and id tuple */
  method MinByKey(covering: seq<Projections>) returns (selected: Projections)
    requires covering != []
    ensures selected in covering && forall c <- covering :: !KeyBefore(c, selected)
  {
    hide KeyBefore;
    selected := covering[0];
    KeyOrder([], selected, selected);
    for i := 1 to |covering|
      invariant selected in covering
      invariant forall j | 0 <= j < i :: !KeyBefore(covering[j], selected)
    {
      KeyOrder(covering[..i], covering[i], selected);
      if KeyBefore(covering[i], selected) {
        selected := covering[i];
      }
    }
  }

  ghost predicate NoneCovers(required: set<string>, combos: seq<Projections>) {
    forall c <- combos :: !(required <= Capabilities(c))
  }

  lemma NothingRequired(candidates: Projections)
    ensures Answers({}, candidates, [], [])
  {
    assert Covers({}, candidates, []);
  }

  lemma KeyOrder(earlier: seq<Projections>, next: Projections, selected: Projections)
    ensures !KeyBefore(next, next)
    ensures KeyBefore(next, selected) ==> forall c <- earlier :: KeyBefore(c, next) ==> KeyBefore(c, selected)
  {
    StringOrderIsTotal();
    LexIrreflexive(STRING_ORDER, Ids(ById(next)));
    forall c | c in earlier && KeyBefore(next, selected) && KeyBefore(c, next) ensures KeyBefore(c, selected) {
      if Cost(c) == Cost(next) == Cost(selected) {
        LexTransitive(STRING_ORDER, Ids(ById(c)), Ids(ById(next)), Ids(ById(selected)));
      }
    }
  }

  // ---------------------------------------------------------------- sorting by id

  lemma CandidateOrder(combo: Projections)
    ensures StrictOrder(CANDIDATE_ORDER)
    ensures DistinctIds(combo) ==> Separated(CANDIDATE_ORDER, combo)
  {
    StringOrderIsTotal();
    forall a: CapabilityProjection, b: CapabilityProjection, c: CapabilityProjection
      ensures !CANDIDATE_ORDER(a, a)
      ensures CANDIDATE_ORDER(a, b) && CANDIDATE_ORDER(b, c) ==> CANDIDATE_ORDER(a, c)
      ensures CANDIDATE_ORDER(a, b) || a.candidateId == b.candidateId || CANDIDATE_ORDER(b, a)
    {
      assert !STRING_ORDER(a.candidateId, a.candidateId);
      assert STRING_ORDER(a.candidateId, b.candidateId) == CANDIDATE_ORDER(a, b);
      assert STRING_ORDER(b.candidateId, a.candidateId) == CANDIDATE_ORDER(b, a);
      assert STRING_ORDER(b.candidateId, c.candidateId) == CANDIDATE_ORDER(b, c);
      assert STRING_ORDER(a.candidateId, c.candidateId) == CANDIDATE_ORDER(a, c);
    }
  }

  lemma {:induction false} CostOfConcat(a: Projections, b: Projections)
    ensures Cost(a + b) == Cost(a) + Cost(b)
  {
    if a == [] {
      assert a + b == b;
    } else {
      assert (a + b)[1..] == a[1..] + b;
      CostOfConcat(a[1..], b);
    }
  }

  lemma {:induction false} SortedById(combo: Projections)
    requires DistinctIds(combo)
    ensures var r := ById(combo);
            && SortedBy(CANDIDATE_ORDER, r) && |r| == |combo| && Cost(r) == Cost(combo)
            && (forall x :: x in r <==> x in combo)
  {
    hide DistinctIds, InsertBy, StrictOrder, Separated;
    CandidateOrder(combo);
    SortedAndSame(CANDIDATE_ORDER, combo);
    if combo != [] {
      var head, tail := combo[0], combo[1..];
      assert combo == [head] + tail;
      DistinctUnfold(head, tail);
      SortedById(tail);
      SeparatedTail(CANDIDATE_ORDER, head, tail);
      var left, right := InsertedBy(CANDIDATE_ORDER, head, ById(tail));
      CostOfConcat(left, right);
      CostOfConcat(left + [head], right);
      CostOfConcat(left, [head]);
    }
  }

  lemma SameMembersSameCapabilities(a: Projections, b: Projections)
    requires forall x :: x in a <==> x in b
    ensures Capabilities(a) == Capabilities(b)
  {
  }

  /** Id-sorted selections drawn from the same candidates with the same ids are the same. */
  lemma SameIdsSameSelection(candidates: Projections, a: Projections, b: Projections)
    requires DistinctIds(candidates) && Ids(a) == Ids(b)
    requires (forall c <- a :: c in candidates) && (forall c <- b :: c in candidates)
    ensures a == b
  {
    forall i | 0 <= i < |a| ensures a[i] == b[i] {
      assert Ids(a)[i] == Ids(b)[i];
      assert a[i] in candidates && b[i] in candidates;
    }
  }

  // ---------------------------------------------------------------- combinations are the selections

  lemma {:induction false} CombinationShape(candidates: Projections, size: nat, combo: Projections)
    requires DistinctIds(candidates) && combo in Combinations(candidates, size)
    ensures |combo| == size <= |candidates| && DistinctIds(combo) && forall c <- combo :: c in candidates
  {
    hide DistinctIds;
    if size == 0 {
      NoIds(combo);
    } else {
      var head, rest := candidates[0], candidates[1..];
      assert candidates == [head] + rest;
      DistinctUnfold(head, rest);
      if combo in Combinations(rest, size) {
        CombinationShape(rest, size, combo);
      } else {
        var k :| 0 <= k < |Combinations(rest, size - 1)| && combo == [head] + Combinations(rest, size - 1)[k];
        var tail := Combinations(rest, size - 1)[k];
        CombinationShape(rest, size - 1, tail);
        DistinctUnfold(head, tail);
      }
    }
  }

  lemma NoIds(combo: Projections)
    ensures combo == [] ==> DistinctIds(combo)
  {
  }

  lemma DistinctUnfold(head: CapabilityProjection, rest: Projections)
    ensures DistinctIds([head] + rest)
       <==> DistinctIds(rest) && forall c <- rest :: c.candidateId != head.candidateId
  {
    var all := [head] + rest;
    if DistinctIds(all) {
      forall i, j | 0 <= i < j < |rest| ensures rest[i].candidateId != rest[j].candidateId {
        assert all[i + 1].candidateId != all[j + 1].candidateId;
      }
      forall c | c in rest ensures c.candidateId != head.candidateId {
        var m :| 0 <= m < |rest| && rest[m] == c;
        assert all[m + 1] == c && all[0] == head;
      }
    }
  }

  function Pick(candidates: Projections, selection: Projections): Projections {
    if candidates == [] then []
    else (if candidates[0] in selection then [candidates[0]] else []) + Pick(candidates[1..], selection)
  }

  lemma {:induction false} PickIsCombination(candidates: Projections, selection: Projections)
    ensures Pick(candidates, selection) in Combinations(candidates, |Pick(candidates, selection)|)
    ensures forall x :: x in Pick(candidates, selection) <==> x in candidates && x in selection
  {
    if candidates != [] {
      var head, rest, tail := candidates[0], candidates[1..], Pick(candidates[1..], selection);
      assert candidates == [head] + rest;
      PickIsCombination(rest, selection);
      if head in selection {
        var lists := Combinations(rest, |tail|);
        var k :| 0 <= k < |lists| && lists[k] == tail;
        assert Prepended(head, lists)[k] == [head] + tail;
      } else {
        assert Pick(candidates, selection) == tail;
        NoCombinationOfTail(head, rest, tail);
      }
    }
  }

  lemma NoCombinationOfTail(head: CapabilityProjection, rest: Projections, tail: Projections)
    requires tail in Combinations(rest, |tail|)
    ensures tail in Combinations([head] + rest, |tail|)
  {
    assert ([head] + rest)[1..] == rest;
  }

  /** Every covering selection is the id-sorted form of some combination of its size. */
  lemma CoverIsCombination(required: set<string>, candidates: Projections, selection: Projections)
    returns (combo: Projections)
    requires DistinctIds(candidates) && Covers(required, candidates, selection)
    ensures combo in Combinations(candidates, |selection|) && |selection| <= |candidates|
    ensures ById(combo) == selection && Cost(combo) == Cost(selection) && required <= Capabilities(combo)
  {
    hide Combinations, Capabilities;
    combo := Pick(candidates, selection);
    PickIsCombination(candidates, selection);
    CombinationShape(candidates, |combo|, combo);
    SortedById(combo);
    assert forall x :: x in combo <==> x in selection;
    SameMembersSameCapabilities(combo, selection);
    CandidateOrder(combo);
    SortedUnique(CANDIDATE_ORDER, ById(combo), selection);
  }

  /** Conversely, sorting a covering combination gives a covering selection. */
  lemma CombinationCovers(required: set<string>, candidates: Projections, size: nat, combo: Projections)
    requires DistinctIds(candidates) && combo in Combinations(candidates, size) && required <= Capabilities(combo)
    ensures Covers(required, candidates, ById(combo)) && |ById(combo)| == size && Cost(ById(combo)) == Cost(combo)
  {
    hide Combinations, Capabilities;
    CombinationShape(candidates, size, combo);
    SortedById(combo);
    SameMembersSameCapabilities(combo, ById(combo));
  }

  lemma NothingCovers(required: set<string>, candidates: Projections)
    requires required != {} && DistinctIds(candidates)
    requires forall k | 1 <= k <= |candidates| :: NoneCovers(required, Combinations(candidates, k))
    ensures Answers(required, candidates, [], Sorted(required - Capabilities(candidates)))
  {
    hide Combinations, DistinctIds;
    forall s ensures !Covers(required, candidates, s) {
      if Covers(required, candidates, s) {
        var combo := CoverIsCombination(required, candidates, s);
      }
    }
  }

  lemma SmallestKeyIsBest(required: set<string>, candidates: Projections, size: nat, selected: Projections)
    requires required != {} && DistinctIds(candidates)
    requires selected in Combinations(candidates, size) && required <= Capabilities(selected)
    requires forall k | 1 <= k < size :: NoneCovers(required, Combinations(candidates, k))
    requires forall c <- Combinations(candidates, size) :: required <= Capabilities(c) ==> !KeyBefore(c, selected)
    ensures Answers(required, candidates, ById(selected), [])
  {
    hide Combinations, DistinctIds;
    CombinationCovers(required, candidates, size, selected);
    forall other | Covers(required, candidates, other) ensures NoWorse(ById(selected), other) {
      assert other != [];
      var combo := CoverIsCombination(required, candidates, other);
    }
  }

  // ---------------------------------------------------------------- consequences

  /** The answer depends only on which candidates there are, not on their order. */
  lemma OrderIndependent(required: set<string>, a: Projections, b: Projections, s: Projections, t: Projections,
                         u: seq<string>, v: seq<string>)
    requires DistinctIds(a) && forall c :: c in a <==> c in b
    requires Answers(required, a, s, u) && Answers(required, b, t, v)
    ensures s == t && u == v
  {
    hide Capabilities, DistinctIds;
    SameMembersSameCapabilities(a, b);
    forall x ensures Covers(required, a, x) <==> Covers(required, b, x) {
    }
    if exists x :: Covers(required, a, x) {
      assert NoWorse(s, t) && NoWorse(t, s);
      LexTotal(STRING_ORDER, Ids(s), Ids(t)) by { StringOrderIsTotal(); }
      SameIdsSameSelection(a, s, t);
    }
  }

  /** Capabilities are reported uncovered exactly when no subset of the candidates covers the request, and
      then exactly those that no candidate offers. */
  lemma UncoveredExactly(required: set<string>, candidates: Projections, selection: Projections, uncovered: seq<string>)
    requires DistinctIds(candidates) && Answers(required, candidates, selection, uncovered)
    ensures uncovered == [] <==> exists s :: Covers(required, candidates, s)
    ensures forall k :: k in uncovered <==> k in required && forall c <- candidates :: k !in c.capabilityIds
    ensures uncovered == [] ==> required <= Capabilities(selection)
  {
    hide DistinctIds;
    SortedById(candidates);
    SameMembersSameCapabilities(candidates, ById(candidates));
    if required <= Capabilities(candidates) {
      assert Covers(required, candidates, ById(candidates));
    }
    if s :| Covers(required, candidates, s) {
      assert Capabilities(s) <= Capabilities(candidates);
    }
    var missing := required - Capabilities(candidates);
    assert forall k :: k in Sorted(missing) <==> k in missing;
    forall k | k in required && Sorted(missing) == [] ensures k in Capabilities(candidates) {
      assert k in missing ==> k in Sorted(missing);
    }
  }
}
