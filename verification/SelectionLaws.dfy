/** The selection in terms of what each candidate offers and costs. */
module SelectionLaws {
  import opened Canonical
  import opened Ordering
  import opened CandidateSelection

  /** The cost of a selection is the sum of the ranks of its candidates. */
  lemma CostIsTheSum(a: Projections, b: Projections, c: CapabilityProjection)
    ensures Cost([]) == 0 && Cost([c]) == c.costRank && Cost(a + b) == Cost(a) + Cost(b)
  {
    CostOfConcat(a, b);
    assert [c][1..] == [];
  }

  /** Candidates are of one projection exactly if no two differ in projection, registry revision or authority. */
  lemma ProjectionsAgree(candidates: Projections)
    ensures OneProjection(candidates)
       <==> && candidates != []
            && forall a, b | a in candidates && b in candidates ::
                 (a.projectionId, a.registryRevisionDigest, a.authorityRefDigest)
                 == (b.projectionId, b.registryRevisionDigest, b.authorityRefDigest)
  {
  }

  /** Some of the given candidates offers each required capability. */
  ghost predicate Offered(required: set<string>, offers: Projections) {
    forall k <- required :: exists c <- offers :: k in c.capabilityIds
  }

  lemma OffersCapabilities(required: set<string>, offers: Projections)
    ensures required <= Capabilities(offers) <==> Offered(required, offers)
  {
    if required <= Capabilities(offers) {
      forall k | k in required ensures exists c <- offers :: k in c.capabilityIds {
        assert k in Capabilities(offers);
      }
    }
  }

  /** Any choice of candidates that offers what is required is no smaller than the selection, and if it is as
      small its total cost is no lower. */
  lemma FewestThenCheapest(required: set<string>, candidates: Projections, selection: Projections, uncovered: seq<string>,
                           others: Projections)
    requires DistinctIds(candidates) && Answers(required, candidates, selection, uncovered)
    requires DistinctIds(others) && (forall c <- others :: c in candidates) && Offered(required, others)
    ensures uncovered == [] && Offered(required, selection)
    ensures |selection| <= |others| && (|selection| == |others| ==> Cost(selection) <= Cost(others))
  {
    hide Capabilities, DistinctIds, Offered;
    OffersCapabilities(required, others);
    OffersCapabilities(required, selection);
    SortedById(others);
    SameMembersSameCapabilities(others, ById(others));
    assert Covers(required, candidates, ById(others));
  }

  /** No selected candidate can be exchanged for a cheaper one that offers what the selection would then lack. */
  lemma NoCheaperExchange(required: set<string>, candidates: Projections, left: Projections, chosen: CapabilityProjection,
                          right: Projections, uncovered: seq<string>, instead: CapabilityProjection)
    requires DistinctIds(candidates) && Answers(required, candidates, left + [chosen] + right, uncovered)
    requires instead in candidates && instead !in left && instead !in right && Offered(required, left + [instead] + right)
    ensures chosen.costRank <= instead.costRank
  {
    hide DistinctIds, Offered, Cost;
    var selection, others := left + [chosen] + right, left + [instead] + right;
    forall c | c in others ensures c in candidates {
      assert c in left ==> c in selection;
      assert c in right ==> c in selection;
      SelectedFrom(required, candidates, selection, uncovered);
    }
    ExchangedDistinct(candidates, left, chosen, right, instead, required, uncovered);
    FewestThenCheapest(required, candidates, selection, uncovered, others);
    CostIsTheSum(left + [chosen], right, chosen);
    CostIsTheSum(left, [chosen], chosen);
    CostIsTheSum(left + [instead], right, instead);
    CostIsTheSum(left, [instead], instead);
  }

  lemma SelectedFrom(required: set<string>, candidates: Projections, selection: Projections, uncovered: seq<string>)
    requires Answers(required, candidates, selection, uncovered)
    ensures forall c <- selection :: c in candidates
    ensures SortedBy(CANDIDATE_ORDER, selection)
  {
  }

  lemma ExchangedDistinct(candidates: Projections, left: Projections, chosen: CapabilityProjection, right: Projections,
                          instead: CapabilityProjection, required: set<string>, uncovered: seq<string>)
    requires DistinctIds(candidates) && Answers(required, candidates, left + [chosen] + right, uncovered)
    requires instead in candidates && instead !in left && instead !in right
    ensures DistinctIds(left + [instead] + right)
  {
    hide Answers;
    var selection, others := left + [chosen] + right, left + [instead] + right;
    SelectedFrom(required, candidates, selection, uncovered);
    CandidateOrder([]);
    forall i, j | 0 <= i < j < |others| ensures others[i].candidateId != others[j].candidateId {
      if i != |left| && j != |left| {
        assert CANDIDATE_ORDER(selection[i], selection[j]);
        assert !CANDIDATE_ORDER(selection[i], selection[i]);
      } else {
        var other := others[if i == |left| then j else i];
        assert other in left || other in right;
        assert other in selection;
        DistinctCandidates(candidates, other, instead);
      }
    }
  }

  lemma DistinctCandidates(candidates: Projections, a: CapabilityProjection, b: CapabilityProjection)
    requires DistinctIds(candidates) && a in candidates && b in candidates && a != b
    ensures a.candidateId != b.candidateId
  {
  }

  /** Among single candidates that offer everything, the cheapest is selected, and of equally cheap ones the one
      whose id comes first. */
  lemma CheapestSingle(required: set<string>, candidates: Projections, chosen: CapabilityProjection, uncovered: seq<string>,
                       other: CapabilityProjection)
    requires DistinctIds(candidates) && Answers(required, candidates, [chosen], uncovered)
    requires other in candidates && Offered(required, [other])
    ensures chosen.costRank < other.costRank
         || (chosen.costRank == other.costRank && (chosen == other || Before(chosen.candidateId, other.candidateId)))
  {
    hide DistinctIds, Offered, Capabilities;
    OffersCapabilities(required, [other]);
    CostIsTheSum([], [], chosen);
    CostIsTheSum([], [], other);
    assert Covers(required, candidates, [other]);
    assert NoWorse([chosen], [other]);
    assert Ids([chosen]) == [chosen.candidateId] && Ids([other]) == [other.candidateId];
    if chosen != other {
      SelectedFrom(required, candidates, [chosen], uncovered);
      assert chosen in [chosen];
      DistinctCandidates(candidates, chosen, other);
      Total(chosen.candidateId, other.candidateId);
      assert STRING_ORDER(other.candidateId, chosen.candidateId) == Before(other.candidateId, chosen.candidateId);
    }
  }
}
