/**
  Retry ordering: a lease for physical attempt n stands on n - 1 earlier leases of the same session
  and logical attempt, each released by a failed terminal outcome before the next was reserved.
 */
module RetryLineage {
  import opened Canonical
  import opened Physical
  import opened Capacity
  import opened AllocatorSafety

  /** `reserves[k]` and `releases[k]` are the history positions where attempt k + 1 was leased and released. */
  ghost predicate LineageChain(ts: seq<CapacityTransition>, reserves: seq<nat>, releases: seq<nat>) {
    && 0 < |reserves| == |releases| + 1
    && (forall k | 0 <= k < |reserves| :: reserves[k] < |ts| && ts[reserves[k]].Reserve?)
    && (forall k | 0 <= k < |reserves| ::
          var lease := ts[reserves[k]].lease;
          lease.physicalAttempt == k + 1 && lease.Key() == ts[reserves[0]].lease.Key())
    && ts[reserves[0]].lease.previousInvocationId.None?
    && ts[reserves[0]].lease.previousReceiptDigest.None?
    && (forall k | 0 <= k < |releases| :: ChainLink(ts, reserves[k], releases[k], reserves[k + 1]))
  }

  /** The lease at `from` was released at `at` by a terminal, non-completed outcome, which the lease at `to` names. */
  ghost predicate ChainLink(ts: seq<CapacityTransition>, from: nat, at: nat, to: nat) {
    && from < at < to < |ts|
    && ts[from].Reserve? && ts[at].Release? && ts[to].Reserve?
    && CopiesIdentity(ts[at].release, ts[from].lease)
    && ts[at].release.cause.TerminalOutcome?
    && ts[at].release.cause.transportStatus != Completed
    && ts[to].lease.previousInvocationId == Some(ts[from].lease.invocationId)
    && ts[to].lease.previousReceiptDigest == Some(ts[at].release.cause.receiptDigest)
  }

  lemma {:induction false} ReleasePosition(ts: seq<CapacityTransition>, r: CapacityRelease) returns (j: nat)
    requires r in ReleasesIn(ts)
    ensures j < |ts| && ts[j].Release? && ts[j].release == r
  {
    var t := ts[|ts| - 1];
    if t.Release? && t.release == r {
      j := |ts| - 1;
    } else {
      j := ReleasePosition(ts[..|ts| - 1], r);
    }
  }

  lemma {:induction false} LeasePosition(ts: seq<CapacityTransition>, l: CapacityLease) returns (j: nat)
    requires l in LeasesIn(ts)
    ensures j < |ts| && ts[j].Reserve? && ts[j].lease == l
  {
    var t := ts[|ts| - 1];
    if t.Reserve? && t.lease == l {
      j := |ts| - 1;
    } else {
      j := LeasePosition(ts[..|ts| - 1], l);
    }
  }

  /** A canonical release at position j gives back a lease reserved at some earlier position. */
  lemma ReleaseFollowsLease(runner: RunnerCapabilities, ts: seq<CapacityTransition>, j: nat) returns (i: nat)
    requires Replay(runner, ts).Some? && j < |ts| && ts[j].Release?
    ensures i < j && ts[i].Reserve? && CopiesIdentity(ts[j].release, ts[i].lease)
  {
    hide ApplyTransition;
    ReplayStep(runner, ts, j);
    var s := Replay(runner, ts[..j]).value;
    ReplayShape(runner, ts[..j]);
    var l := ReleaseAccepted(s, ts[j]);
    UnreleasedMembers(s.Leases(), ReleasedIds(s.Releases()));
    i := LeasePosition(ts[..j], l);
  }

  /** A canonical retry reservation at position i was preceded by the release it names. */
  lemma RetryFollowsRelease(runner: RunnerCapabilities, ts: seq<CapacityTransition>, i: nat) returns (j: nat)
    requires Replay(runner, ts).Some? && i < |ts| && ts[i].Reserve? && ts[i].lease.physicalAttempt != 1
    ensures j < i && ts[j].Release?
    ensures ReleasesPredecessor(ts[j].release, ts[i].lease.Key(), ts[i].lease.physicalAttempt,
                                ts[i].lease.previousInvocationId, ts[i].lease.previousReceiptDigest)
  {
    hide ApplyTransition;
    ReplayStep(runner, ts, i);
    ReplayShape(runner, ts[..i]);
    var s, lease := Replay(runner, ts[..i]).value, ts[i].lease;
    ReserveAccepted(s, ts[i]);
    var r :| r in s.Releases() && ReleasesPredecessor(r, lease.Key(), lease.physicalAttempt,
                                                      lease.previousInvocationId, lease.previousReceiptDigest);
    j := ReleasePosition(ts[..i], r);
  }

  /** Every lease in every canonical history heads a chain of exactly as many leases as its attempt ordinal. */
  lemma {:induction false} LineageOfLease(runner: RunnerCapabilities, ts: seq<CapacityTransition>, i: nat)
    returns (reserves: seq<nat>, releases: seq<nat>)
    requires Replay(runner, ts).Some? && i < |ts| && ts[i].Reserve?
    ensures LineageChain(ts, reserves, releases)
    ensures reserves[|reserves| - 1] == i && |reserves| == ts[i].lease.physicalAttempt
    decreases i
  {
    hide Replay, ApplyTransition;
    if ts[i].lease.physicalAttempt == 1 {
      FirstAttempt(runner, ts, i);
      reserves, releases := [i], [];
    } else {
      var j := RetryFollowsRelease(runner, ts, i);
      var i' := ReleaseFollowsLease(runner, ts, j);
      reserves, releases := LineageOfLease(runner, ts, i');
      ExtendChain(ts, reserves, releases, j, i);
      reserves, releases := reserves + [i], releases + [j];
    }
  }

  lemma FirstAttempt(runner: RunnerCapabilities, ts: seq<CapacityTransition>, i: nat)
    requires Replay(runner, ts).Some? && i < |ts| && ts[i].Reserve? && ts[i].lease.physicalAttempt == 1
    ensures ts[i].lease.previousInvocationId.None? && ts[i].lease.previousReceiptDigest.None?
  {
    hide ApplyTransition;
    ReplayStep(runner, ts, i);
    ReserveAccepted(Replay(runner, ts[..i]).value, ts[i]);
  }

  lemma ExtendChain(ts: seq<CapacityTransition>, reserves: seq<nat>, releases: seq<nat>, j: nat, i: nat)
    requires LineageChain(ts, reserves, releases)
    requires ChainLink(ts, reserves[|reserves| - 1], j, i)
    requires ts[i].lease.physicalAttempt == |reserves| + 1
    requires ts[i].lease.Key() == ts[reserves[0]].lease.Key()
    ensures LineageChain(ts, reserves + [i], releases + [j])
  {
    var reserves', releases' := reserves + [i], releases + [j];
    forall k | 0 <= k < |releases'| ensures ChainLink(ts, reserves'[k], releases'[k], reserves'[k + 1]) {
      if k < |releases| {
        assert ChainLink(ts, reserves[k], releases[k], reserves[k + 1]);
      }
    }
  }
}
