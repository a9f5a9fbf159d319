/**
  The execution ledger (src/general_execution/ledger.py) and the recording of physical attempts in it
  (src/general_execution/physical.py).
 */
module Ledger {
  import opened Canonical
  import opened Physical
  import opened Text

  /** A JSON payload; `OtherPayload` is any other dictionary, with the one key that recording looks up. */
  datatype Payload =
    | DispatchPayload(authorization: PhysicalAttemptAuthorization,
                      authorizationDigest: Digest<PhysicalAttemptAuthorization>)
    | ObservationPayload(observation: PhysicalObservation, observationDigest: Digest<PhysicalObservation>)
    | ReceiptPayload(receipt: PhysicalReceipt, receiptDigest: Digest<PhysicalReceipt>)
    | ResultPayload(result: ResultEnvelope, resultDigest: Digest<ResultEnvelope>)
    | FailurePayload(transportStatus: TransportStatus, failureCode: Option<string>,
                     failedReceiptDigest: Digest<PhysicalReceipt>)
    | OtherPayload(claimedAuthorization: Option<Digest<PhysicalAttemptAuthorization>>, text: string)

  /** An event hash commits to the hash before it, hence to every earlier event. */
  datatype EventHash =
    | Genesis
    | EventHash(index: nat, eventType: string, previousHash: EventHash, payload: Payload)
    | ForeignHash(text: string)

  datatype LedgerEvent = LedgerEvent(index: nat, eventType: string, previousHash: EventHash, payload: Payload,
                                     eventHash: EventHash)

  datatype ExecutionLedger = ExecutionLedger(events: seq<LedgerEvent>)
  {
    function Head(): EventHash { if events == [] then Genesis else events[|events| - 1].eventHash }
  }

  datatype LedgerError = BlankEventType | AlreadyRecorded

  function NextEvent(ledger: ExecutionLedger, eventType: string, payload: Payload): LedgerEvent {
    var index, previous := |ledger.events|, ledger.Head();
    LedgerEvent(index, eventType, previous, payload, EventHash(index, eventType, previous, payload))
  }

  function AppendEvent(ledger: ExecutionLedger, eventType: string, payload: Payload): Result<ExecutionLedger, LedgerError> {
    if Blank(eventType) then Failure(BlankEventType)
    else Success(ExecutionLedger(ledger.events + [NextEvent(ledger, eventType, payload)]))
  }

  /** Every event sits at its own index, follows the hash before it and carries its own hash. */
  ghost predicate Chained(events: seq<LedgerEvent>) {
    forall i | 0 <= i < |events| ::
      && events[i].index == i
      && events[i].previousHash == ExecutionLedger(events[..i]).Head()
      && events[i].eventHash == EventHash(i, events[i].eventType, events[i].previousHash, events[i].payload)
  }

  method VerifyLedger(ledger: ExecutionLedger) returns (ok: bool)
    ensures ok <==> Chained(ledger.events)
  {
    var previous := Genesis;
    for expected := 0 to |ledger.events|
      invariant previous == ExecutionLedger(ledger.events[..expected]).Head()
      invariant forall i | 0 <= i < expected ::
        && ledger.events[i].index == i
        && ledger.events[i].previousHash == ExecutionLedger(ledger.events[..i]).Head()
        && ledger.events[i].eventHash
           == EventHash(i, ledger.events[i].eventType, ledger.events[i].previousHash, ledger.events[i].payload)
    {
      var event := ledger.events[expected];
      if event.index != expected || event.previousHash != previous {
        return false;
      }
      if event.eventHash != EventHash(event.index, event.eventType, event.previousHash, event.payload) {
        return false;
      }
      previous := event.eventHash;
    }
    return true;
  }

  /** The ledger that appending these events one by one to an empty one builds */
  function Built(entries: seq<(string, Payload)>): Result<ExecutionLedger, LedgerError> {
    if entries == [] then Success(ExecutionLedger([]))
    else match Built(entries[..|entries| - 1])
      case Failure(e) => Failure(e)
      case Success(ledger) => AppendEvent(ledger, entries[|entries| - 1].0, entries[|entries| - 1].1)
  }

  lemma AppendKeepsChained(events: seq<LedgerEvent>, eventType: string, payload: Payload)
    ensures Chained(events + [NextEvent(ExecutionLedger(events), eventType, payload)]) <==> Chained(events)
  {
    var all := events + [NextEvent(ExecutionLedger(events), eventType, payload)];
    assert forall i | 0 <= i <= |events| :: all[..i] == events[..i];
    assert events[..|events|] == events;
    if Chained(all) {
      forall i | 0 <= i < |events| ensures all[i] == events[i] && events[i].index == i {
      }
    }
  }

  /** Appending is the only way to a verifying ledger: a ledger verifies exactly when it is what appending
      its own events to an empty ledger builds, apart from blank event types, which appending refuses. */
  lemma {:induction false} VerifiesExactlyBuilt(events: seq<LedgerEvent>)
    ensures Built(Entries(events)) == Success(ExecutionLedger(events))
       <==> Chained(events) && forall e <- events :: !Blank(e.eventType)
  {
    if events != [] {
      var front, last := events[..|events| - 1], events[|events| - 1];
      assert events == front + [last];
      VerifiesExactlyBuilt(front);
      assert Entries(events)[..|events| - 1] == Entries(front);
      AppendKeepsChained(front, last.eventType, last.payload);
      if Chained(events) {
        assert last == NextEvent(ExecutionLedger(front), last.eventType, last.payload);
      }
    }
  }

  function Entries(events: seq<LedgerEvent>): (entries: seq<(string, Payload)>)
    ensures |entries| == |events|
    ensures forall i | 0 <= i < |events| :: entries[i] == (events[i].eventType, events[i].payload)
  {
    seq(|events|, i requires 0 <= i < |events| => (events[i].eventType, events[i].payload))
  }

  /** Two verifying ledgers with the same head record the same events. */
  lemma {:induction false} HeadFixesEvents(a: seq<LedgerEvent>, b: seq<LedgerEvent>)
    requires Chained(a) && Chained(b) && ExecutionLedger(a).Head() == ExecutionLedger(b).Head()
    ensures a == b
    decreases |a|
  {
    HeadIsLastHash(a);
    HeadIsLastHash(b);
    if a != [] {
      var n := |a| - 1;
      assert a == a[..n] + [a[n]] && b == b[..n] + [b[n]];
      ChainedPrefix(a, n);
      ChainedPrefix(b, n);
      hide Chained;
      HeadFixesEvents(a[..n], b[..n]);
    }
  }

  lemma HeadIsLastHash(events: seq<LedgerEvent>)
    requires Chained(events)
    ensures var n, head := |events| - 1, ExecutionLedger(events).Head();
            if events == [] then head == Genesis
            else head == EventHash(n, events[n].eventType, ExecutionLedger(events[..n]).Head(), events[n].payload)
                 && events[n] == LedgerEvent(n, head.eventType, head.previousHash, head.payload, head)
  {
  }

  lemma ChainedPrefix(events: seq<LedgerEvent>, k: nat)
    requires Chained(events) && k <= |events|
    ensures Chained(events[..k])
  {
    assert forall i | 0 <= i < k :: events[..k][..i] == events[..i];
  }

  // ---------------------------------------------------------------- physical attempts in the ledger

  datatype PhysicalAttemptRecord = PhysicalAttemptRecord(
    authorizationId: StableId<PhysicalAttemptAuthorization>, outcomeDigest: Digest<PhysicalOutcomeBundle>,
    firstEventIndex: int, lastEventIndex: int, recordedHead: EventHash)

  function PhysicalPayloads(bundle: PhysicalOutcomeBundle): (r: seq<(string, Payload)>)
    ensures |r| == 4 && forall p <- r :: !Blank(p.0)
  {
    var r := [
      ("PHYSICAL_DISPATCH", DispatchPayload(bundle.authorization, Sha256(bundle.authorization))),
      ("PHYSICAL_OBSERVATION", ObservationPayload(bundle.observation, Sha256(bundle.observation))),
      ("PHYSICAL_RECEIPT", ReceiptPayload(bundle.receipt, Sha256(bundle.receipt))),
      if bundle.result.Some? then
        ("PHYSICAL_RESULT", ResultPayload(bundle.result.value, Sha256(bundle.result.value)))
      else
        ("PHYSICAL_TERMINAL_FAILURE", FailurePayload(bundle.receipt.transportStatus, bundle.receipt.failureCode,
                                                     Sha256(bundle.receipt)))];
    assert forall p <- r :: p.0[0] == 'P' && p.0[0] in p.0 && !IsSpace('P');
    r
  }

  function AuthorizationKey(payload: Payload): Option<Digest<PhysicalAttemptAuthorization>> {
    match payload
    case DispatchPayload(_, d) => Some(d)
    case OtherPayload(claimed, _) => claimed
    case _ => None
  }

  predicate Recorded(events: seq<LedgerEvent>, authorization: PhysicalAttemptAuthorization) {
    exists e <- events :: e.eventType == "PHYSICAL_DISPATCH" && AuthorizationKey(e.payload) == Some(Sha256(authorization))
  }

  /** Appends the first `n` payloads of an attempt. */
  function AppendPayloads(ledger: ExecutionLedger, bundle: PhysicalOutcomeBundle, n: nat): ExecutionLedger
    requires n <= 4
  {
    if n == 0 then ledger
    else
      var before, entry := AppendPayloads(ledger, bundle, n - 1), PhysicalPayloads(bundle)[n - 1];
      ExecutionLedger(before.events + [NextEvent(before, entry.0, entry.1)])
  }

  method RecordPhysicalAttempt(ledger: ExecutionLedger, bundle: PhysicalOutcomeBundle)
    returns (r: Result<(ExecutionLedger, PhysicalAttemptRecord), LedgerError>)
    ensures r.Failure? <==> Recorded(ledger.events, bundle.authorization)
    ensures r.Success? ==>
              && r.value.0 == AppendPayloads(ledger, bundle, 4)
              && r.value.1 == RecordOf(ledger, bundle)
  {
    if Recorded(ledger.events, bundle.authorization) {
      return Failure(AlreadyRecorded);
    }
    var first := |ledger.events|;
    var current := ledger;
    var payloads := PhysicalPayloads(bundle);
    for i := 0 to 4
      invariant current == AppendPayloads(ledger, bundle, i)
    {
      assert payloads[i] in payloads;
      var appended := AppendEvent(current, payloads[i].0, payloads[i].1);
      current := appended.value;
    }
    return Success((current, PhysicalAttemptRecord(
      StableId(bundle.authorization), Sha256(bundle), first, first + 3, current.Head())));
  }

  function RecordOf(ledger: ExecutionLedger, bundle: PhysicalOutcomeBundle): PhysicalAttemptRecord {
    PhysicalAttemptRecord(StableId(bundle.authorization), Sha256(bundle), |ledger.events|, |ledger.events| + 3,
                          AppendPayloads(ledger, bundle, 4).Head())
  }

  ghost predicate VerifyPhysicalAttemptRecord(ledger: ExecutionLedger, bundle: PhysicalOutcomeBundle,
                                              record: PhysicalAttemptRecord)
  {
    && Chained(ledger.events)
    && record.authorizationId == StableId(bundle.authorization)
    && record.outcomeDigest == Sha256(bundle)
    && record.lastEventIndex == record.firstEventIndex + 3
    && 0 <= record.firstEventIndex
    && record.lastEventIndex < |ledger.events|
    && var actual := ledger.events[record.firstEventIndex..record.lastEventIndex + 1];
    && Entries(actual) == PhysicalPayloads(bundle)
    && actual[3].eventHash == record.recordedHead
  }

  lemma {:induction false} AppendPayloadsShape(ledger: ExecutionLedger, bundle: PhysicalOutcomeBundle, n: nat)
    requires n <= 4
    ensures var after := AppendPayloads(ledger, bundle, n).events;
            && |after| == |ledger.events| + n
            && ledger.events <= after
            && Entries(after[|ledger.events|..]) == PhysicalPayloads(bundle)[..n]
            && (Chained(after) <==> Chained(ledger.events))
  {
    hide PhysicalPayloads, Chained;
    if n > 0 {
      AppendPayloadsShape(ledger, bundle, n - 1);
      var before, entry := AppendPayloads(ledger, bundle, n - 1), PhysicalPayloads(bundle)[n - 1];
      AppendKeepsChained(before.events, entry.0, entry.1);
      EntriesAfterAppend(before.events, |ledger.events|, NextEvent(before, entry.0, entry.1));
      assert PhysicalPayloads(bundle)[..n] == PhysicalPayloads(bundle)[..n - 1] + [entry];
    }
  }

  lemma EntriesAfterAppend(events: seq<LedgerEvent>, k: nat, e: LedgerEvent)
    requires k <= |events|
    ensures Entries((events + [e])[k..]) == Entries(events[k..]) + [(e.eventType, e.payload)]
    ensures Entries([]) == []
  {
    assert (events + [e])[k..] == events[k..] + [e];
  }

  /** The record that recording returns verifies on the ledger it returns. */
  lemma RecordedAttemptVerifies(ledger: ExecutionLedger, bundle: PhysicalOutcomeBundle)
    requires Chained(ledger.events)
    ensures VerifyPhysicalAttemptRecord(AppendPayloads(ledger, bundle, 4), bundle, RecordOf(ledger, bundle))
  {
    hide PhysicalPayloads, AppendPayloads;
    AppendPayloadsShape(ledger, bundle, 4);
    var after, first := AppendPayloads(ledger, bundle, 4).events, |ledger.events|;
    assert after[first..first + 4] == after[first..];
    assert PhysicalPayloads(bundle)[..4] == PhysicalPayloads(bundle);
  }

  /** A record that verifies keeps verifying after any further appends, and its authorization can never be
      recorded there again. */
  lemma RecordVerifiesForEver(ledger: ExecutionLedger, bundle: PhysicalOutcomeBundle, record: PhysicalAttemptRecord,
                              later: ExecutionLedger)
    requires VerifyPhysicalAttemptRecord(ledger, bundle, record)
    requires ledger.events <= later.events && Chained(later.events)
    ensures VerifyPhysicalAttemptRecord(later, bundle, record)
    ensures Recorded(later.events, bundle.authorization)
  {
    hide PhysicalPayloads, Chained;
    var first, last := record.firstEventIndex, record.lastEventIndex;
    assert later.events[first..last + 1] == ledger.events[first..last + 1];
    DispatchPayloadFirst(bundle);
    assert Entries(later.events[first..last + 1])[0] == PhysicalPayloads(bundle)[0];
    assert later.events[first] == later.events[first..last + 1][0];
    assert later.events[first] in later.events;
  }

  lemma DispatchPayloadFirst(bundle: PhysicalOutcomeBundle)
    ensures PhysicalPayloads(bundle)[0] == ("PHYSICAL_DISPATCH", DispatchPayload(bundle.authorization, Sha256(bundle.authorization)))
  {
  }

  /** A record fixes what it records: two ledgers on which it verifies agree up to its last event, and the
      outcomes it verifies for are the same. */
  lemma RecordFixesLedger(a: ExecutionLedger, b: ExecutionLedger, x: PhysicalOutcomeBundle, y: PhysicalOutcomeBundle,
                          record: PhysicalAttemptRecord)
    requires VerifyPhysicalAttemptRecord(a, x, record) && VerifyPhysicalAttemptRecord(b, y, record)
    ensures x == y
    ensures a.events[..record.lastEventIndex + 1] == b.events[..record.lastEventIndex + 1]
  {
    hide PhysicalPayloads;
    var n := record.lastEventIndex + 1;
    ChainedPrefix(a.events, n);
    ChainedPrefix(b.events, n);
    assert a.events[record.firstEventIndex..n][3] == a.events[..n][n - 1];
    assert b.events[record.firstEventIndex..n][3] == b.events[..n][n - 1];
    HeadFixesEvents(a.events[..n], b.events[..n]);
  }
}
