/** The provider conformance harness and its reference target (src/general_execution/conformance_harness.py). */
module Conformance {
  import opened Canonical
  import opened Text
  import opened Physical
  import opened Capacity
  import opened DurableCapacity
  import opened Dispatch
  import opened DispatchGuard
  import opened Reconciliation

  type RequestDigest = Digest<AdapterDispatchRequest>

  /** A provider invocation id is derived from the key, the request and a running number. */
  datatype OperationSeed = OperationSeed(invocationId: string, requestDigest: RequestDigest, ordinal: nat)

  type ProviderId = StableId<OperationSeed>

  datatype SubmitStatus = SubmitAccepted | SubmitDuplicateRejected | SubmitDifferentRejected

  /** What the target hashes as evidence of an answer */
  datatype TargetPayload = RequestPayload(invocationId: string, requestDigest: RequestDigest)
    | OperationsPayload(providerInvocationIds: seq<ProviderId>)

  datatype TargetEvidence = TargetEvidence(kind: string, payload: TargetPayload)

  datatype SubmitResult = SubmitResult(invocationId: string, requestDigest: RequestDigest, status: SubmitStatus,
                                       providerInvocationId: Option<ProviderId>, evidenceDigest: Digest<TargetEvidence>)

  datatype LookupStatus = LookupAbsent | LookupAccepted | LookupTerminal | LookupUnknown | LookupMismatch

  datatype LookupResult = LookupResult(invocationId: string, requestDigest: RequestDigest, status: LookupStatus,
                                       providerInvocationId: Option<ProviderId>, terminalEvidenceDigest: Option<string>,
                                       evidenceDigest: Digest<TargetEvidence>)

  datatype ReferenceOperation = ReferenceOperation(invocationId: string, requestDigest: RequestDigest,
                                                   providerInvocationId: ProviderId, terminalEvidenceDigest: Option<string>)

  type Operations = map<string, seq<ReferenceOperation>>

  datatype TargetError = CannotTerminalize

  // ---------------------------------------------------------------- the target as a function of its state

  function Existing(operations: Operations, id: string): seq<ReferenceOperation> {
    if id in operations then operations[id] else []
  }

  function NewOperation(ordinal: nat, id: string, request: RequestDigest): ReferenceOperation {
    ReferenceOperation(id, request, StableId(OperationSeed(id, request, ordinal + 1)), None)
  }

  function AboutRequest(kind: string, id: string, request: RequestDigest): Digest<TargetEvidence> {
    Sha256(TargetEvidence(kind, RequestPayload(id, request)))
  }

  function AboutOperations(kind: string, providers: seq<ProviderId>): Digest<TargetEvidence> {
    Sha256(TargetEvidence(kind, OperationsPayload(providers)))
  }

  function ProvidersOf(existing: seq<ReferenceOperation>): seq<ProviderId> {
    seq(|existing|, i requires 0 <= i < |existing| => existing[i].providerInvocationId)
  }

  function SubmitTx(mode: SameRequestSemantics, operations: Operations, ordinal: nat, id: string, request: RequestDigest)
    : (Operations, nat, SubmitResult)
  {
    var existing := Existing(operations, id);
    var created := NewOperation(ordinal, id, request);
    if existing == [] || (existing[0].requestDigest == request && mode == MayDuplicate) then
      (operations[id := existing + [created]], ordinal + 1,
       AcceptedResult(id, request, created))
    else if existing[0].requestDigest != request then
      (operations, ordinal, SubmitResult(id, request, SubmitDifferentRejected, None,
                                         AboutRequest("different_request_rejected", id, request)))
    else if mode == DuplicateRejected then
      (operations, ordinal, SubmitResult(id, request, SubmitDuplicateRejected, None,
                                         AboutOperations("duplicate_rejected", [existing[0].providerInvocationId])))
    else
      (operations, ordinal, AcceptedResult(id, request, existing[0]))
  }

  function AcceptedResult(id: string, request: RequestDigest, operation: ReferenceOperation): SubmitResult {
    SubmitResult(id, request, SubmitAccepted, Some(operation.providerInvocationId),
                 AboutOperations("accepted", [operation.providerInvocationId]))
  }

  function LookupTx(operations: Operations, id: string, request: RequestDigest): LookupResult {
    var existing := Existing(operations, id);
    if existing == [] then
      LookupResult(id, request, LookupAbsent, None, None, AboutRequest("absent", id, request))
    else if existing[0].requestDigest != request then
      LookupResult(id, request, LookupMismatch, None, None, AboutRequest("identity_mismatch", id, request))
    else if |existing| > 1 then
      LookupResult(id, request, LookupUnknown, None, None,
                   AboutOperations("ambiguous_multiple_operations", ProvidersOf(existing)))
    else
      var provider, terminal := existing[0].providerInvocationId, existing[0].terminalEvidenceDigest;
      LookupResult(id, request, if terminal.Some? then LookupTerminal else LookupAccepted, Some(provider), terminal,
                   AboutOperations(if terminal.Some? then "terminal" else "accepted_lookup", [provider]))
  }

  function MarkTerminalTx(operations: Operations, id: string, request: RequestDigest, evidence: string)
    : Result<Operations, TargetError>
  {
    var existing := Existing(operations, id);
    if |existing| != 1 || existing[0].requestDigest != request then Failure(CannotTerminalize)
    else Success(operations[id := [existing[0].(terminalEvidenceDigest := Some(evidence))]])
  }

  class ReferenceConformanceTarget {
    const mode: SameRequestSemantics
    const adapterRevision: string
    var operations: Operations
    var ordinal: nat

    constructor (adapterRevision: string, mode: SameRequestSemantics)
      ensures this.mode == mode && this.adapterRevision == adapterRevision
      ensures operations == map[] && ordinal == 0
    {
      this.mode, this.adapterRevision := mode, adapterRevision;
      operations, ordinal := map[], 0;
    }

    method Reset()
      modifies this
      ensures operations == map[] && ordinal == 0
    {
      operations, ordinal := map[], 0;
    }

    method Submit(id: string, request: RequestDigest) returns (r: SubmitResult)
      modifies this
      ensures (operations, ordinal, r) == SubmitTx(mode, old(operations), old(ordinal), id, request)
    {
      var existing := Existing(operations, id);
      var operation;
      if existing != [] {
        var canonical := existing[0];
        if canonical.requestDigest != request {
          return SubmitResult(id, request, SubmitDifferentRejected, None,
                              AboutRequest("different_request_rejected", id, request));
        }
        if mode == DuplicateRejected {
          return SubmitResult(id, request, SubmitDuplicateRejected, None,
                              AboutOperations("duplicate_rejected", [canonical.providerInvocationId]));
        }
        if mode == SameOperation {
          operation := canonical;
        } else {
          operation := AppendOperation(id, request);
        }
      } else {
        operation := AppendOperation(id, request);
      }
      return AcceptedResult(id, request, operation);
    }

    method AppendOperation(id: string, request: RequestDigest) returns (operation: ReferenceOperation)
      modifies this
      ensures operation == NewOperation(old(ordinal), id, request)
      ensures ordinal == old(ordinal) + 1
      ensures operations == old(operations)[id := Existing(old(operations), id) + [operation]]
    {
      ordinal := ordinal + 1;
      operation := ReferenceOperation(id, request, StableId(OperationSeed(id, request, ordinal)), None);
      operations := operations[id := Existing(operations, id) + [operation]];
    }

    method Lookup(id: string, request: RequestDigest) returns (r: LookupResult)
      ensures r == LookupTx(operations, id, request)
    {
      var existing := Existing(operations, id);
      if existing == [] {
        return LookupResult(id, request, LookupAbsent, None, None, AboutRequest("absent", id, request));
      }
      var canonical := existing[0];
      if canonical.requestDigest != request {
        return LookupResult(id, request, LookupMismatch, None, None, AboutRequest("identity_mismatch", id, request));
      }
      if |existing| > 1 {
        return LookupResult(id, request, LookupUnknown, None, None,
                            AboutOperations("ambiguous_multiple_operations", ProvidersOf(existing)));
      }
      if canonical.terminalEvidenceDigest.Some? {
        return LookupResult(id, request, LookupTerminal, Some(canonical.providerInvocationId),
                            canonical.terminalEvidenceDigest,
                            AboutOperations("terminal", [canonical.providerInvocationId]));
      }
      return LookupResult(id, request, LookupAccepted, Some(canonical.providerInvocationId), None,
                          AboutOperations("accepted_lookup", [canonical.providerInvocationId]));
    }

    method MarkTerminal(id: string, request: RequestDigest, evidence: string) returns (r: Result<(), TargetError>)
      modifies this
      ensures r.Success? <==> MarkTerminalTx(old(operations), id, request, evidence).Success?
      ensures operations == (if r.Success? then MarkTerminalTx(old(operations), id, request, evidence).value
                             else old(operations))
      ensures ordinal == old(ordinal)
    {
      var existing := Existing(operations, id);
      if |existing| != 1 || existing[0].requestDigest != request {
        return Failure(CannotTerminalize);
      }
      operations := operations[id := [existing[0].(terminalEvidenceDigest := Some(evidence))]];
      return Success(());
    }
  }

  // ---------------------------------------------------------------- the harness

  /** The answers a case collected, and for the first case what the contract declared */
  datatype Transcript =
    | SameRequest(declared: SameRequestSemantics, first: SubmitResult, second: SubmitResult)
    | DifferentRequest(first: SubmitResult, differentRequest: SubmitResult)
    | LookupIdentity(submit: SubmitResult, correct: LookupResult, wrong: LookupResult)
    | Absence(before: LookupResult, submit: SubmitResult, after: LookupResult)
    | TerminalEvidence(submit: SubmitResult, terminal: LookupResult)

  datatype CaseEvidence = CaseEvidence(caseId: string, transcript: Transcript)

  datatype CaseResult = CaseResult(caseId: string, passed: bool, evidenceDigest: Digest<CaseEvidence>)

  function Case(caseId: string, passed: bool, transcript: Transcript): CaseResult {
    CaseResult(caseId, passed, Sha256(CaseEvidence(caseId, transcript)))
  }

  datatype ConformanceEvidence = ConformanceEvidence(contractDigest: Digest<ReconciliationContract>,
                                                     adapterRevision: string, cases: seq<CaseResult>)

  datatype ConformanceRun = ConformanceRun(
    contractDigest: Digest<ReconciliationContract>, provider: string, adapter: string, adapterVersion: string,
    adapterRevision: string, caseResults: seq<CaseResult>, evidenceDigest: Digest<ConformanceEvidence>,
    allRequiredCasesPassed: bool)

  datatype HarnessError = TargetIdentityMismatch | BlankInvocationId | RequestsNotDistinct

  const REFERENCE_PROVIDER := "reference-provider"
  const REFERENCE_ADAPTER := "reference-adapter"
  const REFERENCE_VERSION := "1"

  /** The answers of a fresh target to a submit, and to a second one after it */
  function FirstSubmit(mode: SameRequestSemantics, id: string, request: RequestDigest): SubmitResult {
    SubmitTx(mode, map[], 0, id, request).2
  }

  function SecondSubmit(mode: SameRequestSemantics, id: string, request: RequestDigest, second: RequestDigest): SubmitResult {
    var (operations, ordinal, _) := SubmitTx(mode, map[], 0, id, request);
    SubmitTx(mode, operations, ordinal, id, second).2
  }

  function LookupAfter(mode: SameRequestSemantics, id: string, request: RequestDigest, asked: RequestDigest): LookupResult {
    LookupTx(SubmitTx(mode, map[], 0, id, request).0, id, asked)
  }

  /** The answer of a target whose one operation has been marked terminal */
  function LookupMarked(mode: SameRequestSemantics, id: string, request: RequestDigest, evidence: string): LookupResult {
    var operations := SubmitTx(mode, map[], 0, id, request).0;
    match MarkTerminalTx(operations, id, request, evidence)
    case Success(marked) => LookupTx(marked, id, request)
    case Failure(_) => LookupTx(operations, id, request)
  }

  method SameRequestCase(contract: ReconciliationContract, target: ReferenceConformanceTarget, id: string,
                         request: RequestDigest) returns (c: CaseResult)
    modifies target
    ensures c == Case("same_request_semantics", contract.sameKeySameRequest == target.mode,
                      SameRequest(contract.sameKeySameRequest, FirstSubmit(target.mode, id, request),
                                  SecondSubmit(target.mode, id, request, request)))
  {
    target.Reset();
    var first := target.Submit(id, request);
    var second := target.Submit(id, request);
    var passed;
    if first.status != SubmitAccepted || first.providerInvocationId.None? {
      passed := false;
    } else if contract.sameKeySameRequest == SameOperation {
      passed := second.status == SubmitAccepted && second.providerInvocationId == first.providerInvocationId;
    } else if contract.sameKeySameRequest == DuplicateRejected {
      passed := second.status == SubmitDuplicateRejected;
    } else {
      passed := second.status == SubmitAccepted && second.providerInvocationId.Some?
                && second.providerInvocationId != first.providerInvocationId;
    }
    return Case("same_request_semantics", passed, SameRequest(contract.sameKeySameRequest, first, second));
  }

  method DifferentRequestCase(target: ReferenceConformanceTarget, id: string, request: RequestDigest,
                              different: RequestDigest) returns (c: CaseResult)
    modifies target
    ensures c == Case("different_request_rejection", request != different,
                      DifferentRequest(FirstSubmit(target.mode, id, request),
                                       SecondSubmit(target.mode, id, request, different)))
  {
    target.Reset();
    var first := target.Submit(id, request);
    var second := target.Submit(id, different);
    return Case("different_request_rejection",
                first.status == SubmitAccepted && second.status == SubmitDifferentRejected,
                DifferentRequest(first, second));
  }

  method LookupIdentityCase(target: ReferenceConformanceTarget, id: string, request: RequestDigest,
                            different: RequestDigest) returns (c: CaseResult)
    modifies target
    ensures c == Case("lookup_identity_binding", request != different,
                      LookupIdentity(FirstSubmit(target.mode, id, request), LookupAfter(target.mode, id, request, request),
                                     LookupAfter(target.mode, id, request, different)))
  {
    target.Reset();
    var submitted := target.Submit(id, request);
    var correct := target.Lookup(id, request);
    var wrong := target.Lookup(id, different);
    return Case("lookup_identity_binding",
                submitted.status == SubmitAccepted && correct.status == LookupAccepted
                && correct.providerInvocationId == submitted.providerInvocationId
                && wrong.status == LookupMismatch,
                LookupIdentity(submitted, correct, wrong));
  }

  method AbsenceCase(target: ReferenceConformanceTarget, id: string, request: RequestDigest) returns (c: CaseResult)
    modifies target
    ensures c == Case("absence_semantics", true,
                      Absence(LookupTx(map[], id, request), FirstSubmit(target.mode, id, request),
                              LookupAfter(target.mode, id, request, request)))
  {
    target.Reset();
    var before := target.Lookup(id, request);
    var submitted := target.Submit(id, request);
    var after := target.Lookup(id, request);
    return Case("absence_semantics",
                before.status == LookupAbsent && submitted.status == SubmitAccepted
                && after.status == LookupAccepted && after.providerInvocationId == submitted.providerInvocationId,
                Absence(before, submitted, after));
  }

  method TerminalCase(target: ReferenceConformanceTarget, id: string, request: RequestDigest, evidence: string)
    returns (c: CaseResult)
    modifies target
    ensures c == Case("terminal_evidence_binding", true,
                      TerminalEvidence(FirstSubmit(target.mode, id, request), LookupMarked(target.mode, id, request, evidence)))
  {
    target.Reset();
    var submitted := target.Submit(id, request);
    if submitted.status == SubmitAccepted {
      var marked := target.MarkTerminal(id, request, evidence);
    }
    var terminal := target.Lookup(id, request);
    return Case("terminal_evidence_binding",
                submitted.status == SubmitAccepted && terminal.status == LookupTerminal
                && terminal.providerInvocationId == submitted.providerInvocationId
                && terminal.terminalEvidenceDigest == Some(evidence),
                TerminalEvidence(submitted, terminal));
  }

  /** Against the reference target a run passes exactly when the contract declares the semantics the target has;
      the evidence keeps every case with its transcript, and the run binds the evidence. */
  method RunProviderConformance(contract: ReconciliationContract, target: ReferenceConformanceTarget, id: string,
                                request: RequestDigest, different: RequestDigest, terminalEvidence: string)
    returns (r: Result<(ConformanceEvidence, ConformanceRun), HarnessError>)
    modifies target
    ensures r == Failure(TargetIdentityMismatch)
       <==> (contract.provider, contract.adapter, contract.adapterVersion)
            != (REFERENCE_PROVIDER, REFERENCE_ADAPTER, REFERENCE_VERSION)
    ensures r.Success? ==> request != different && !Blank(id)
    ensures r.Success? ==>
              var (evidence, run) := r.value;
              && (run.allRequiredCasesPassed <==> contract.sameKeySameRequest == target.mode)
              && (run.allRequiredCasesPassed <==> forall c <- evidence.cases :: c.passed)
              && |evidence.cases| == (if contract.terminalEvidenceLookup then 5 else 4)
              && evidence == ConformanceEvidence(Sha256(contract), target.adapterRevision, evidence.cases)
              && run == ConformanceRun(Sha256(contract), contract.provider, contract.adapter, contract.adapterVersion,
                                       target.adapterRevision, evidence.cases, Sha256(evidence), run.allRequiredCasesPassed)
    ensures r.Success? ==>
              var cases, mode := r.value.0.cases, target.mode;
              && cases[0] == Case("same_request_semantics", contract.sameKeySameRequest == mode,
                                  SameRequest(contract.sameKeySameRequest, FirstSubmit(mode, id, request),
                                              SecondSubmit(mode, id, request, request)))
              && cases[1] == Case("different_request_rejection", true,
                                  DifferentRequest(FirstSubmit(mode, id, request), SecondSubmit(mode, id, request, different)))
              && cases[2] == Case("lookup_identity_binding", true,
                                  LookupIdentity(FirstSubmit(mode, id, request), LookupAfter(mode, id, request, request),
                                                 LookupAfter(mode, id, request, different)))
              && cases[3] == Case("absence_semantics", true,
                                  Absence(LookupTx(map[], id, request), FirstSubmit(mode, id, request),
                                          LookupAfter(mode, id, request, request)))
              && (contract.terminalEvidenceLookup ==>
                    cases[4] == Case("terminal_evidence_binding", true,
                                     TerminalEvidence(FirstSubmit(mode, id, request),
                                                      LookupMarked(mode, id, request, terminalEvidence))))
  {
    hide Blank, FirstSubmit, SecondSubmit, LookupAfter, LookupMarked, LookupTx;
    if || contract.provider != REFERENCE_PROVIDER || contract.adapter != REFERENCE_ADAPTER
       || contract.adapterVersion != REFERENCE_VERSION
    {
      return Failure(TargetIdentityMismatch);
    }
    if Blank(id) {
      return Failure(BlankInvocationId);
    }
    if request == different {
      return Failure(RequestsNotDistinct);
    }
    var same := SameRequestCase(contract, target, id, request);
    var rejection := DifferentRequestCase(target, id, request, different);
    var identity := LookupIdentityCase(target, id, request, different);
    var absence := AbsenceCase(target, id, request);
    var cases := [same, rejection, identity, absence];
    if contract.terminalEvidenceLookup {
      var terminal := TerminalCase(target, id, request, terminalEvidence);
      cases := cases + [terminal];
    }
    assert cases[0] in cases;
    var evidence := ConformanceEvidence(Sha256(contract), target.adapterRevision, cases);
    return Success((evidence, ConformanceRun(
      Sha256(contract), REFERENCE_PROVIDER, REFERENCE_ADAPTER, REFERENCE_VERSION, target.adapterRevision, cases,
      Sha256(evidence), forall c <- cases :: c.passed)));
  }

  // ---------------------------------------------------------------- what passing means

  /** A created target after any sequence of submits */
  function SubmitAll(mode: SameRequestSemantics, submits: seq<(string, RequestDigest)>): (Operations, nat) {
    if submits == [] then (map[], 0)
    else
      var (operations, ordinal) := SubmitAll(mode, submits[..|submits| - 1]);
      var (after, next, _) := SubmitTx(mode, operations, ordinal, submits[|submits| - 1].0, submits[|submits| - 1].1);
      (after, next)
  }

  lemma {:induction false} AtMostOneOperation(mode: SameRequestSemantics, submits: seq<(string, RequestDigest)>, id: string)
    requires mode != MayDuplicate
    ensures |Existing(SubmitAll(mode, submits).0, id)| <= 1
  {
    if submits != [] {
      AtMostOneOperation(mode, submits[..|submits| - 1], id);
      AtMostOneOperation(mode, submits[..|submits| - 1], submits[|submits| - 1].0);
    }
  }

  /** Exactly the two safe modes keep every invocation to one operation, whatever is submitted. */
  lemma SafeModes(mode: SameRequestSemantics, id: string, request: RequestDigest)
    ensures mode != MayDuplicate <==> forall submits, key :: |Existing(SubmitAll(mode, submits).0, key)| <= 1
  {
    forall submits, key | mode != MayDuplicate ensures |Existing(SubmitAll(mode, submits).0, key)| <= 1 {
      AtMostOneOperation(mode, submits, key);
    }
    if mode == MayDuplicate {
      var once, twice := [(id, request)], [(id, request), (id, request)];
      assert once[..0] == [] && twice[..1] == once;
      assert SubmitAll(mode, []) == (map[], 0);
      assert |Existing(SubmitAll(mode, once).0, id)| == 1;
      assert |Existing(SubmitAll(mode, twice).0, id)| == 2;
    }
  }

  /** Resubmitting under a contract that tells the truth about the target never creates a second operation,
      whatever else is submitted and however often. */
  lemma TruthfulContractIsSafe(
      contract: ReconciliationContract, mode: SameRequestSemantics,
      state: IntentState, permit: DispatchPermit, auth: PhysicalAttemptAuthorization, evidence: ReconciliationEvidence,
      live: Option<LiveDispatchPermit>, heads: Option<Heads>, runner: Option<RunnerCapabilities>,
      submits: seq<(string, RequestDigest)>, id: string)
    requires contract.sameKeySameRequest == mode
    requires AuthorizesResubmission(DecideReconciliation(state, permit, auth, contract, evidence, live, heads, runner))
    ensures |Existing(SubmitAll(mode, submits).0, id)| <= 1
  {
    ResubmissionChecks(state, permit, auth, contract, evidence, live, heads, runner);
    AtMostOneOperation(mode, submits, id);
  }

  /** Harness and reconciliation together: once a contract has passed against a target, every resubmission that
      reconciliation authorises under it is harmless at that target. */
  method PassingRunMakesResubmissionSafe(contract: ReconciliationContract, target: ReferenceConformanceTarget, id: string,
                                         request: RequestDigest, different: RequestDigest, evidence: string)
    returns (r: Result<(ConformanceEvidence, ConformanceRun), HarnessError>)
    modifies target
    ensures r.Success? && r.value.1.allRequiredCasesPassed ==>
              forall state, permit, auth, observed, live, heads, runner, submits, key ::
                AuthorizesResubmission(DecideReconciliation(state, permit, auth, contract, observed, live, heads, runner)) ==>
                |Existing(SubmitAll(target.mode, submits).0, key)| <= 1
  {
    hide DecideReconciliation, AuthorizesResubmission;
    r := RunProviderConformance(contract, target, id, request, different, evidence);
    if r.Success? && r.value.1.allRequiredCasesPassed {
      forall state, permit, auth, observed, live, heads, runner, submits, key |
        AuthorizesResubmission(DecideReconciliation(state, permit, auth, contract, observed, live, heads, runner))
        ensures |Existing(SubmitAll(target.mode, submits).0, key)| <= 1
      {
        TruthfulContractIsSafe(contract, target.mode, state, permit, auth, observed, live, heads, runner, submits, key);
      }
    }
  }
}
