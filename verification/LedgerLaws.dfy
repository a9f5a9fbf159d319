/** What recording a physical attempt writes, event by event. */
module LedgerLaws {
  import opened Canonical
  import opened Physical
  import opened Text
  import opened Ledger

  /** An authorization is recorded exactly if some dispatch event's payload carries its digest. */
  lemma RecordedExactly(events: seq<LedgerEvent>, auth: PhysicalAttemptAuthorization)
    ensures Recorded(events, auth)
       <==> exists e <- events ::
              && e.eventType == "PHYSICAL_DISPATCH"
              && ((e.payload.DispatchPayload? && e.payload.authorizationDigest == Sha256(auth))
                  || (e.payload.OtherPayload? && e.payload.claimedAuthorization == Some(Sha256(auth))))
  {
    hide ExecutionLedger.Head;
  }

  /** The event at this index is of this type and payload, and chained to the event before it. */
  ghost predicate Logs(events: seq<LedgerEvent>, index: nat, eventType: string, payload: Payload) {
    && index < |events|
    && var previous := if index == 0 then Genesis else events[index - 1].eventHash;
       events[index] == LedgerEvent(index, eventType, previous, payload, EventHash(index, eventType, previous, payload))
  }

  lemma AppendsExactly(ledger: ExecutionLedger, eventType: string, payload: Payload)
    ensures var r := AppendEvent(ledger, eventType, payload);
            && (r.Success? <==> !Blank(eventType))
            && (r.Success? ==>
                  && |r.value.events| == |ledger.events| + 1 && ledger.events <= r.value.events
                  && Logs(r.value.events, |ledger.events|, eventType, payload) && r.value.Head() == r.value.events[|ledger.events|].eventHash)
  {
    hide Blank;
  }

  /** Recording appends four chained events in this order: the authorization, its observation, its receipt, and the
      result if there is one, or else the failure.  The record names the first, the last and the hash of the last. */
  lemma AttemptIsLogged(ledger: ExecutionLedger, bundle: PhysicalOutcomeBundle)
    ensures var events, n, record := AppendPayloads(ledger, bundle, 4).events, |ledger.events|, RecordOf(ledger, bundle);
            && |events| == n + 4 && ledger.events <= events
            && Logs(events, n, "PHYSICAL_DISPATCH", DispatchPayload(bundle.authorization, Sha256(bundle.authorization)))
            && Logs(events, n + 1, "PHYSICAL_OBSERVATION", ObservationPayload(bundle.observation, Sha256(bundle.observation)))
            && Logs(events, n + 2, "PHYSICAL_RECEIPT", ReceiptPayload(bundle.receipt, Sha256(bundle.receipt)))
            && (match bundle.result
                case Some(result) => Logs(events, n + 3, "PHYSICAL_RESULT", ResultPayload(result, Sha256(result)))
                case None => Logs(events, n + 3, "PHYSICAL_TERMINAL_FAILURE",
                                  FailurePayload(bundle.receipt.transportStatus, bundle.receipt.failureCode, Sha256(bundle.receipt))))
            && record == PhysicalAttemptRecord(StableId(bundle.authorization), Sha256(bundle), n, n + 3, events[n + 3].eventHash)
  {
    hide PhysicalPayloads, AppendPayloads, Logs;
    LoggedAt(ledger, bundle, 1);
    LoggedAt(ledger, bundle, 2);
    LoggedAt(ledger, bundle, 3);
    LoggedAt(ledger, bundle, 4);
    AppendPayloadsShape(ledger, bundle, 4);
    PayloadsListed(bundle);
  }

  /** The k-th payload stands at its place in the ledger and stays there. */
  lemma LoggedAt(ledger: ExecutionLedger, bundle: PhysicalOutcomeBundle, k: nat)
    requires 1 <= k <= 4
    ensures var entry := PhysicalPayloads(bundle)[k - 1];
            Logs(AppendPayloads(ledger, bundle, 4).events, |ledger.events| + k - 1, entry.0, entry.1)
  {
    hide PhysicalPayloads, AppendPayloads, Chained;
    var before, entry := AppendPayloads(ledger, bundle, k - 1), PhysicalPayloads(bundle)[k - 1];
    AppendPayloadsShape(ledger, bundle, k - 1);
    PayloadsExtend(ledger, bundle, k);
    LaterPayloads(ledger, bundle, k);
    StaysLogged(before, entry.0, entry.1, AppendPayloads(ledger, bundle, 4).events);
  }

  lemma PayloadsExtend(ledger: ExecutionLedger, bundle: PhysicalOutcomeBundle, k: nat)
    requires 1 <= k <= 4
    ensures var before, entry := AppendPayloads(ledger, bundle, k - 1), PhysicalPayloads(bundle)[k - 1];
            AppendPayloads(ledger, bundle, k).events == before.events + [NextEvent(before, entry.0, entry.1)]
  {
    hide PhysicalPayloads;
  }

  lemma {:induction false} LaterPayloads(ledger: ExecutionLedger, bundle: PhysicalOutcomeBundle, k: nat)
    requires 1 <= k <= 4
    ensures AppendPayloads(ledger, bundle, k).events <= AppendPayloads(ledger, bundle, 4).events
    decreases 4 - k
  {
    hide PhysicalPayloads, AppendPayloads;
    if k < 4 {
      PayloadsExtend(ledger, bundle, k + 1);
      LaterPayloads(ledger, bundle, k + 1);
    }
  }

  lemma StaysLogged(before: ExecutionLedger, eventType: string, payload: Payload, later: seq<LedgerEvent>)
    requires before.events + [NextEvent(before, eventType, payload)] <= later
    ensures Logs(later, |before.events|, eventType, payload)
  {
    var after := before.events + [NextEvent(before, eventType, payload)];
    assert later[|before.events|] == after[|before.events|];
    assert before.events != [] ==> later[|before.events| - 1] == after[|before.events| - 1];
  }

  lemma PayloadsListed(bundle: PhysicalOutcomeBundle)
    ensures var p := PhysicalPayloads(bundle);
            && p[0] == ("PHYSICAL_DISPATCH", DispatchPayload(bundle.authorization, Sha256(bundle.authorization)))
            && p[1] == ("PHYSICAL_OBSERVATION", ObservationPayload(bundle.observation, Sha256(bundle.observation)))
            && p[2] == ("PHYSICAL_RECEIPT", ReceiptPayload(bundle.receipt, Sha256(bundle.receipt)))
            && (match bundle.result
                case Some(result) => p[3] == ("PHYSICAL_RESULT", ResultPayload(result, Sha256(result)))
                case None => p[3] == ("PHYSICAL_TERMINAL_FAILURE",
                                      FailurePayload(bundle.receipt.transportStatus, bundle.receipt.failureCode, Sha256(bundle.receipt))))
  {
  }
}
