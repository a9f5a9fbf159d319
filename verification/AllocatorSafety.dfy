/**
  What every canonical capacity state satisfies: bounded occupancy, distinct slots and sessions,
  one lease per authorization, one release per lease, and conservation.
 */
module AllocatorSafety {
  import opened Canonical
  import opened Physical
  import opened Capacity

  ghost predicate DistinctLeases(leases: seq<CapacityLease>) {
    forall i, j :: 0 <= i < j < |leases| ==>
      leases[i] != leases[j] && leases[i].authorizationDigest != leases[j].authorizationDigest
  }

  ghost predicate DistinctReleases(releases: seq<CapacityRelease>) {
    forall i, j :: 0 <= i < j < |releases| ==> releases[i].leaseId != releases[j].leaseId
  }

  ghost predicate SeparateOccupants(active: seq<CapacityLease>) {
    forall i, j :: 0 <= i < j < |active| ==>
      active[i].slot != active[j].slot && active[i].Key() != active[j].Key()
  }

  ghost predicate ReleasesCopyLeases(releases: seq<CapacityRelease>, leases: seq<CapacityLease>) {
    forall r <- releases :: exists l <- leases :: CopiesIdentity(r, l)
  }

  ghost predicate BoundLeases(s: RunnerCapacityState) {
    forall l <- s.Leases() ::
      && l.runnerId == s.runnerId
      && l.runnerCapabilityDigest == s.runnerCapabilityDigest
      && l.slot < s.maxParallelism
  }

  ghost predicate AllocatorSafe(s: RunnerCapacityState) {
    && |s.ActiveLeases()| <= s.maxParallelism
    && SeparateOccupants(s.ActiveLeases())
    && BoundLeases(s)
    && DistinctLeases(s.Leases())
    && DistinctReleases(s.Releases())
    && ReleasesCopyLeases(s.Releases(), s.Leases())
    && |s.Leases()| == |s.ActiveLeases()| + |s.Releases()|
    && s.generation == |s.Leases()| + |s.Releases()|
  }

  // ---------------------------------------------------------------- views under one more transition

  lemma ViewsAfterReserve(s: RunnerCapacityState, t: CapacityTransition)
    requires t.Reserve?
    ensures Advance(s, t).Leases() == s.Leases() + [t.lease]
    ensures Advance(s, t).Releases() == s.Releases()
  {
    assert (s.transitions + [t])[..|s.transitions|] == s.transitions;
  }

  lemma ViewsAfterRelease(s: RunnerCapacityState, t: CapacityTransition)
    requires t.Release?
    ensures Advance(s, t).Leases() == s.Leases()
    ensures Advance(s, t).Releases() == s.Releases() + [t.release]
  {
    assert (s.transitions + [t])[..|s.transitions|] == s.transitions;
  }

  /** `active_leases` is exactly the leases whose id no release names. */
  lemma {:induction false} UnreleasedMembers(leases: seq<CapacityLease>, released: set<StableId<CapacityLease>>)
    ensures forall l :: l in Unreleased(leases, released) <==> l in leases && StableId(l) !in released
  {
    if leases != [] {
      UnreleasedMembers(leases[..|leases| - 1], released);
      assert leases == leases[..|leases| - 1] + [leases[|leases| - 1]];
    }
  }

  lemma UnreleasedAppend(leases: seq<CapacityLease>, l: CapacityLease, released: set<StableId<CapacityLease>>)
    requires StableId(l) !in released
    ensures Unreleased(leases + [l], released) == Unreleased(leases, released) + [l]
  {
    assert (leases + [l])[..|leases|] == leases;
  }

  lemma {:induction false} UnreleasedUnaffected(leases: seq<CapacityLease>, released: set<StableId<CapacityLease>>,
                                                id: StableId<CapacityLease>)
    requires forall l <- leases :: StableId(l) != id
    ensures Unreleased(leases, released + {id}) == Unreleased(leases, released)
  {
    if leases != [] {
      assert leases[|leases| - 1] in leases;
      assert forall l <- leases[..|leases| - 1] :: l in leases;
      UnreleasedUnaffected(leases[..|leases| - 1], released, id);
    }
  }

  /** Releasing one active lease removes exactly that lease and keeps the order of the others. */
  lemma {:induction false} UnreleasedRemove(leases: seq<CapacityLease>, released: set<StableId<CapacityLease>>, l: CapacityLease)
    returns (left: seq<CapacityLease>, right: seq<CapacityLease>)
    requires DistinctLeases(leases) && l in leases && StableId(l) !in released
    ensures Unreleased(leases, released) == left + [l] + right
    ensures Unreleased(leases, released + {StableId(l)}) == left + right
  {
    var front, last := leases[..|leases| - 1], leases[|leases| - 1];
    assert leases == front + [last];
    if last == l {
      forall x | x in front ensures StableId(x) != StableId(l) {
        var i :| 0 <= i < |front| && front[i] == x;
        assert leases[i] != leases[|leases| - 1];
      }
      UnreleasedUnaffected(front, released, StableId(l));
      left, right := Unreleased(front, released), [];
    } else {
      left, right := UnreleasedRemove(front, released, l);
      var tail := if StableId(last) in released then [] else [last];
      assert left + [l] + (right + tail) == left + [l] + right + tail;
      assert left + (right + tail) == left + right + tail;
      right := right + tail;
    }
  }

  lemma {:induction false} MatchesMember(active: seq<CapacityLease>, id: StableId<CapacityLease>, digest: Digest<CapacityLease>)
    ensures forall l :: l in Matches(active, id, digest) <==> l in active && StableId(l) == id && Sha256(l) == digest
  {
    if active != [] {
      MatchesMember(active[..|active| - 1], id, digest);
      assert active == active[..|active| - 1] + [active[|active| - 1]];
    }
  }

  /** Active leases are distinct, so a lookup by id and digest never finds two. */
  lemma {:induction false} AtMostOneMatch(active: seq<CapacityLease>, id: StableId<CapacityLease>, digest: Digest<CapacityLease>)
    requires SeparateOccupants(active)
    ensures |Matches(active, id, digest)| <= 1
    ensures |Matches(active, id, digest)| == 1 <==> exists l <- active :: StableId(l) == id && Sha256(l) == digest
  {
    MatchesMember(active, id, digest);
    if active != [] {
      var front, last := active[..|active| - 1], active[|active| - 1];
      AtMostOneMatch(front, id, digest);
      if StableId(last) == id && Sha256(last) == digest {
        forall x | x in front ensures x != last {
          var i :| 0 <= i < |front| && front[i] == x;
          assert active[i].slot != active[|active| - 1].slot;
        }
      }
    }
    if |Matches(active, id, digest)| == 1 {
      assert Matches(active, id, digest)[0] in active;
    }
  }

  /** In a canonical state an active lease is the one match for its id and digest. */
  lemma SingleMatch(s: RunnerCapacityState, l: CapacityLease)
    requires AllocatorSafe(s)
    ensures l in s.ActiveLeases() ==> Matches(s.ActiveLeases(), StableId(l), Sha256(l)) == [l]
    ensures l !in s.ActiveLeases() ==> |Matches(s.ActiveLeases(), StableId(l), Sha256(l))| == 0
  {
    hide LeasesIn, ReleasesIn, Unreleased, Matches;
    var matches := Matches(s.ActiveLeases(), StableId(l), Sha256(l));
    AtMostOneMatch(s.ActiveLeases(), StableId(l), Sha256(l));
    MatchesMember(s.ActiveLeases(), StableId(l), Sha256(l));
    if |matches| == 1 { assert matches[0] in matches; }
  }

  // ---------------------------------------------------------------- what an accepted transition establishes

  ghost predicate MayReserve(s: RunnerCapacityState, lease: CapacityLease) {
    && lease.expectedStateDigest == Sha256(s)
    && lease.runnerId == s.runnerId
    && lease.runnerCapabilityDigest == s.runnerCapabilityDigest
    && lease.slot < s.maxParallelism
    && |s.ActiveLeases()| < s.maxParallelism
    && (forall x <- s.ActiveLeases() :: x.slot != lease.slot && x.Key() != lease.Key())
    && (forall x <- s.Leases() :: x != lease && x.authorizationDigest != lease.authorizationDigest)
    && PredecessorReleased(s, lease.Key(), lease.physicalAttempt, lease.previousInvocationId,
                           lease.previousReceiptDigest)
  }

  /** A reservation is accepted exactly under these conditions, whichever order the code tests them in. */
  lemma ReserveAccepted(s: RunnerCapacityState, t: CapacityTransition)
    requires t.Reserve?
    ensures ApplyTransition(s, t).Success? <==> t.expectedStateDigest == Sha256(s) && MayReserve(s, t.lease)
  {
    hide LeasesIn, ReleasesIn, Unreleased, PredecessorReleased;
  }

  lemma ReleaseAccepted(s: RunnerCapacityState, t: CapacityTransition) returns (l: CapacityLease)
    requires t.Release? && ApplyTransition(s, t).Success?
    ensures l in s.ActiveLeases() && CopiesIdentity(t.release, l)
  {
    hide LeasesIn, ReleasesIn, Unreleased;
    var r := t.release;
    MatchesMember(s.ActiveLeases(), r.leaseId, r.leaseDigest);
    l := Matches(s.ActiveLeases(), r.leaseId, r.leaseDigest)[0];
    assert l in Matches(s.ActiveLeases(), r.leaseId, r.leaseDigest);
  }

  // ---------------------------------------------------------------- preservation

  lemma SafeAfterReserve(s: RunnerCapacityState, t: CapacityTransition)
    requires AllocatorSafe(s) && t.Reserve? && MayReserve(s, t.lease)
    ensures AllocatorSafe(Advance(s, t))
    ensures Advance(s, t).ActiveLeases() == s.ActiveLeases() + [t.lease]
  {
    hide LeasesIn, ReleasesIn, PredecessorReleased, Unreleased;
    var leases, released, next := s.Leases(), ReleasedIds(s.Releases()), Advance(s, t);
    ViewsAfterReserve(s, t);
    assert StableId(t.lease) !in released;
    UnreleasedAppend(leases, t.lease, released);
    assert next.ActiveLeases() == s.ActiveLeases() + [t.lease];
    forall r <- next.Releases() ensures exists l <- next.Leases() :: CopiesIdentity(r, l) {
      var l :| l in leases && CopiesIdentity(r, l);
      assert l in next.Leases();
    }
  }

  lemma SeparateWithout(left: seq<CapacityLease>, l: CapacityLease, right: seq<CapacityLease>)
    requires SeparateOccupants(left + [l] + right)
    ensures SeparateOccupants(left + right)
  {
    var before, after := left + [l] + right, left + right;
    forall i, j | 0 <= i < j < |after| ensures after[i].slot != after[j].slot && after[i].Key() != after[j].Key() {
      var i', j' := if i < |left| then i else i + 1, if j < |left| then j else j + 1;
      assert before[i'] == after[i] && before[j'] == after[j];
    }
  }

  lemma SafeAfterRelease(s: RunnerCapacityState, t: CapacityTransition, l: CapacityLease)
    requires AllocatorSafe(s) && t.Release? && l in s.ActiveLeases() && CopiesIdentity(t.release, l)
    ensures AllocatorSafe(Advance(s, t))
    ensures l !in Advance(s, t).ActiveLeases()
  {
    hide LeasesIn, ReleasesIn, Unreleased;
    var leases, releases, next := s.Leases(), s.Releases(), Advance(s, t);
    ViewsAfterRelease(s, t);
    UnreleasedMembers(leases, ReleasedIds(releases));
    assert ReleasedIds(next.Releases()) == ReleasedIds(releases) + {StableId(l)};
    var left, right := UnreleasedRemove(leases, ReleasedIds(releases), l);
    UnreleasedMembers(leases, ReleasedIds(next.Releases()));
    SeparateWithout(left, l, right);
    forall r <- next.Releases() ensures exists x <- next.Leases() :: CopiesIdentity(r, x) {
      if r in releases {
        var x :| x in leases && CopiesIdentity(r, x);
      }
    }
    forall i | 0 <= i < |releases| ensures releases[i].leaseId != t.release.leaseId {
      assert releases[i].leaseId in ReleasedIds(releases);
    }
  }

  /** Safety holds in every canonical state: the conjunction the allocator exists to keep. */
  lemma {:induction false} CanonicalStateSafe(runner: RunnerCapabilities, ts: seq<CapacityTransition>)
    requires Replay(runner, ts).Some?
    ensures AllocatorSafe(Replay(runner, ts).value)
  {
    hide ApplyTransition, AllocatorSafe;
    if ts == [] {
      SafeInitially(runner);
    } else {
      var last := ts[|ts| - 1];
      var s := Replay(runner, ts[..|ts| - 1]).value;
      CanonicalStateSafe(runner, ts[..|ts| - 1]);
      SafeStep(s, last);
    }
  }

  lemma SafeInitially(runner: RunnerCapabilities)
    ensures AllocatorSafe(InitialCapacityState(runner))
  {
  }

  lemma SafeStep(s: RunnerCapacityState, t: CapacityTransition)
    requires AllocatorSafe(s) && ApplyTransition(s, t).Success?
    ensures AllocatorSafe(ApplyTransition(s, t).value)
  {
    hide AllocatorSafe;
    ApplyAdvances(s, t);
    if t.Reserve? {
      ReserveAccepted(s, t);
      hide ApplyTransition;
      SafeAfterReserve(s, t);
    } else {
      var l := ReleaseAccepted(s, t);
      hide ApplyTransition;
      SafeAfterRelease(s, t, l);
    }
  }
}
