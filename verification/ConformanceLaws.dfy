/** What the reference target answers and keeps, with the evidence it gives, whatever was submitted before. */
module ConformanceLaws {
  import opened Canonical
  import opened Physical
  import opened Reconciliation
  import opened Conformance

  /** An answer's evidence about operations, and about a request no operation answers */
  ghost predicate AboutProviders(digest: Digest<TargetEvidence>, kind: string, providers: seq<ProviderId>) {
    digest == Sha256(TargetEvidence(kind, OperationsPayload(providers)))
  }

  ghost predicate AboutNothing(digest: Digest<TargetEvidence>, kind: string, id: string, request: RequestDigest) {
    digest == Sha256(TargetEvidence(kind, RequestPayload(id, request)))
  }

  /** A submit creates an operation exactly if there is none under its key, or the target duplicates and the first one
      there has the same request.  It is refused as different exactly if the first one has another request, and as a
      duplicate exactly if the target rejects those; and otherwise it answers with the first one there. */
  lemma SubmitsExactly(mode: SameRequestSemantics, operations: Operations, ordinal: nat, id: string, request: RequestDigest)
    ensures var (after, next, r) := SubmitTx(mode, operations, ordinal, id, request);
            var old' := if id in operations then operations[id] else [];
            var same := old' != [] && old'[0].requestDigest == request;
            var created := ReferenceOperation(id, request, StableId(OperationSeed(id, request, ordinal + 1)), None);
            && (r.invocationId, r.requestDigest) == (id, request)
            && (if old' == [] || (same && mode == MayDuplicate) then
                  && after == operations[id := old' + [created]] && next == ordinal + 1
                  && r.providerInvocationId == Some(created.providerInvocationId)
                else
                  && after == operations && next == ordinal
                  && r.providerInvocationId == (if same && mode == SameOperation then Some(old'[0].providerInvocationId) else None))
            && (r.status == SubmitDifferentRejected <==> old' != [] && !same)
            && (r.status == SubmitDuplicateRejected <==> same && mode == DuplicateRejected)
            && (match r.status
                case SubmitDifferentRejected => AboutNothing(r.evidenceDigest, "different_request_rejected", id, request)
                case SubmitDuplicateRejected =>
                  old' != [] && AboutProviders(r.evidenceDigest, "duplicate_rejected", [old'[0].providerInvocationId])
                case SubmitAccepted =>
                  r.providerInvocationId.Some? && AboutProviders(r.evidenceDigest, "accepted", [r.providerInvocationId.value]))
  {
  }

  /** A lookup finds nothing exactly if there is no operation under its key, a mismatch exactly if the first one there has
      another request, and nothing definite exactly if there are several; a single one it reports, with its terminal
      evidence if it has any. */
  lemma LooksUpExactly(operations: Operations, id: string, request: RequestDigest)
    ensures var r, old' := LookupTx(operations, id, request), if id in operations then operations[id] else [];
            && (r.invocationId, r.requestDigest) == (id, request)
            && (match r.status
                case LookupAbsent => old' == [] && AboutNothing(r.evidenceDigest, "absent", id, request)
                case LookupMismatch =>
                  old' != [] && old'[0].requestDigest != request && AboutNothing(r.evidenceDigest, "identity_mismatch", id, request)
                case LookupUnknown =>
                  && |old'| > 1 && old'[0].requestDigest == request
                  && exists providers ::
                       && AboutProviders(r.evidenceDigest, "ambiguous_multiple_operations", providers) && |providers| == |old'|
                       && forall i | 0 <= i < |old'| :: providers[i] == old'[i].providerInvocationId
                case LookupAccepted =>
                  && |old'| == 1 && old'[0].requestDigest == request && old'[0].terminalEvidenceDigest.None?
                  && AboutProviders(r.evidenceDigest, "accepted_lookup", [old'[0].providerInvocationId])
                case LookupTerminal =>
                  && |old'| == 1 && old'[0].requestDigest == request && old'[0].terminalEvidenceDigest.Some?
                  && AboutProviders(r.evidenceDigest, "terminal", [old'[0].providerInvocationId]))
            && (if r.status == LookupAccepted || r.status == LookupTerminal then
                  && |old'| == 1 && r.providerInvocationId == Some(old'[0].providerInvocationId)
                  && r.terminalEvidenceDigest == old'[0].terminalEvidenceDigest
                else r.providerInvocationId.None? && r.terminalEvidenceDigest.None?)
  {
    var old' := if id in operations then operations[id] else [];
    assert AboutProviders(Sha256(TargetEvidence("ambiguous_multiple_operations", OperationsPayload(ProvidersOf(old')))),
                          "ambiguous_multiple_operations", ProvidersOf(old'));
  }

  lemma CasesBindTranscripts(caseId: string, passed: bool, transcript: Transcript)
    ensures Case(caseId, passed, transcript) == CaseResult(caseId, passed, Sha256(CaseEvidence(caseId, transcript)))
  {
  }

  // ---------------------------------------------------------------- provider ids

  function Number(op: ReferenceOperation): nat {
    if op.providerInvocationId.StableId? then op.providerInvocationId.preimage.ordinal else 0
  }

  /** The operations under one key: each with a provider id made of the key, its request and a number so far, in the
      order of the numbers. */
  ghost predicate Numbered(id: string, list: seq<ReferenceOperation>, ordinal: nat) {
    && (forall op <- list ::
          && op.invocationId == id && Number(op) <= ordinal
          && op.providerInvocationId == StableId(OperationSeed(id, op.requestDigest, Number(op))))
    && forall j, k | 0 <= j < k < |list| :: Number(list[j]) < Number(list[k])
  }

  ghost predicate Apart(a: seq<ReferenceOperation>, b: seq<ReferenceOperation>) {
    forall x, y | x in a && y in b :: Number(x) != Number(y)
  }

  ghost predicate AllNumbered(operations: Operations, ordinal: nat) {
    && (forall id <- operations :: Numbered(id, operations[id], ordinal))
    && (forall a, b | a in operations && b in operations && a != b :: Apart(operations[a], operations[b]))
  }

  lemma {:induction false} NumberedAlways(mode: SameRequestSemantics, submits: seq<(string, RequestDigest)>)
    ensures var (operations, ordinal) := SubmitAll(mode, submits); AllNumbered(operations, ordinal)
  {
    if submits != [] {
      var front, last := submits[..|submits| - 1], submits[|submits| - 1];
      NumberedAlways(mode, front);
      var (operations, ordinal) := SubmitAll(mode, front);
      hide AllNumbered;
      SubmitsExactly(mode, operations, ordinal, last.0, last.1);
      CreatedNumbered(operations, ordinal, last.0, last.1);
    }
  }

  lemma CreatedNumbered(operations: Operations, ordinal: nat, id: string, request: RequestDigest)
    requires AllNumbered(operations, ordinal)
    ensures var created := ReferenceOperation(id, request, StableId(OperationSeed(id, request, ordinal + 1)), None);
            AllNumbered(operations[id := (if id in operations then operations[id] else []) + [created]], ordinal + 1)
  {
    hide Numbered, Apart;
    var old' := if id in operations then operations[id] else [];
    var created := ReferenceOperation(id, request, StableId(OperationSeed(id, request, ordinal + 1)), None);
    EmptyNumbered(id, ordinal);
    OneMoreNumbered(id, old', created, ordinal);
    forall other | other in operations && other != id
      ensures Numbered(other, operations[other], ordinal + 1)
      ensures Apart(operations[other], old' + [created]) && Apart(old' + [created], operations[other])
    {
      EmptyNumbered(other, ordinal);
      OneMoreApart(other, operations[other], old', created, ordinal);
    }
  }

  lemma EmptyNumbered(id: string, ordinal: nat)
    ensures Numbered(id, [], ordinal) && forall list :: Apart(list, []) && Apart([], list)
  {
  }

  lemma OneMoreNumbered(id: string, list: seq<ReferenceOperation>, op: ReferenceOperation, ordinal: nat)
    requires Numbered(id, list, ordinal) && op.invocationId == id
    requires op.providerInvocationId == StableId(OperationSeed(id, op.requestDigest, ordinal + 1))
    ensures Numbered(id, list + [op], ordinal + 1)
  {
    assert forall j | 0 <= j < |list| :: list[j] in list;
  }

  lemma OneMoreApart(id: string, list: seq<ReferenceOperation>, other: seq<ReferenceOperation>, op: ReferenceOperation, ordinal: nat)
    requires Numbered(id, list, ordinal) && Number(op) == ordinal + 1 && Apart(list, other)
    ensures Numbered(id, list, ordinal + 1) && Apart(list, other + [op]) && Apart(other + [op], list)
  {
  }

  /** Whatever is submitted, in whatever mode, no two operations of the target ever get the same provider id. */
  lemma ProviderIdsAreUnique(mode: SameRequestSemantics, submits: seq<(string, RequestDigest)>, a: string, j: nat, b: string, k: nat)
    requires var operations := SubmitAll(mode, submits).0;
             && a in operations && b in operations && j < |operations[a]| && k < |operations[b]| && (a, j) != (b, k)
    ensures var operations := SubmitAll(mode, submits).0;
            operations[a][j].providerInvocationId != operations[b][k].providerInvocationId
  {
    NumberedAlways(mode, submits);
    hide SubmitAll;
    var operations := SubmitAll(mode, submits).0;
    assert Numbered(a, operations[a], SubmitAll(mode, submits).1) && Numbered(b, operations[b], SubmitAll(mode, submits).1);
    if a != b { assert Apart(operations[a], operations[b]); }
  }
}
