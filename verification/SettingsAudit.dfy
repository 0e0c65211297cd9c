/**
 The vocabulary of the settings audit trail: lifecycle steps, results, the
 terminal steps and the precedence among acknowledgements.
 */
module SettingsAudit {
  import opened Options

  datatype SettingStep =
    | Incoming
    | RejectedNotAllowed
    | RejectedValidation
    | Enqueued
    | Superseded
    | DeliverSelected
    | InjectedBox
    | AckBoxObserved
    | AckTblEvents
    | AckReasonSetting
    | Nack
    | Timeout
    | SessionCleared

  datatype SettingResult = Pending | Rejected | Replaced | Confirmed | Failed | Incomplete

  datatype AuditRecord = AuditRecord(
    auditId: string,
    deviceId: string,
    table: string,
    key: string,
    step: SettingStep,
    result: SettingResult,
    sessionId: string)

  predicate IsTerminalStep(step: SettingStep) {
    step in {Superseded, AckTblEvents, AckReasonSetting, Nack, Timeout, SessionCleared}
  }

  function AckPrecedence(step: SettingStep): nat {
    match step
    case AckTblEvents => 3
    case AckReasonSetting => 2
    case AckBoxObserved => 1
    case _ => 0
  }

  predicate IsStrongerAck(thisStep: SettingStep, otherStep: SettingStep) {
    AckPrecedence(thisStep) > AckPrecedence(otherStep)
  }

  function TerminalResult(step: SettingStep): SettingResult {
    match step
    case RejectedNotAllowed | RejectedValidation => Rejected
    case Superseded => Replaced
    case AckTblEvents | AckReasonSetting => Confirmed
    case SessionCleared => Incomplete
    case _ => Failed
  }

  /** The result a step record carries: the given one, or the step's own default. */
  function ResultOf(step: SettingStep, result: Option<SettingResult>): SettingResult {
    match result
    case Some(r) => r
    case None => if IsTerminalStep(step) then TerminalResult(step) else Pending
  }

  /** A record that ends the life of its audit id unless a stronger one follows. */
  predicate IsTerminalRecord(r: AuditRecord) {
    IsTerminalStep(r.step) && r.result != Pending
  }

  /**
   The terminal steps that delivery recorded for one audit id, in order. The
   handler alone records Superseded, so that step is not part of the ladder.
   */
  function Ladder(trail: seq<AuditRecord>, auditId: string): seq<SettingStep> {
    if trail == [] then []
    else
      var r := trail[|trail| - 1];
      Ladder(trail[..|trail| - 1], auditId)
      + (if r.auditId == auditId && IsTerminalRecord(r) && r.step != Superseded then [r.step] else [])
  }

  predicate Rising(steps: seq<SettingStep>) {
    forall i, j :: 0 <= i < j < |steps| ==> AckPrecedence(steps[i]) < AckPrecedence(steps[j])
  }

  predicate LadderSteps(steps: seq<SettingStep>) {
    forall i :: 0 <= i < |steps| ==> IsTerminalStep(steps[i]) && steps[i] != Superseded
  }

  lemma LadderAppend(trail: seq<AuditRecord>, r: AuditRecord, auditId: string)
    ensures Ladder(trail + [r], auditId)
         == Ladder(trail, auditId)
            + (if r.auditId == auditId && IsTerminalRecord(r) && r.step != Superseded then [r.step] else [])
  {
    assert (trail + [r])[..|trail|] == trail;
  }

  lemma {:induction false} RungHeight(steps: seq<SettingStep>, i: nat)
    requires Rising(steps) && LadderSteps(steps) && i < |steps|
    ensures AckPrecedence(steps[i]) >= if i == 0 then 0 else i + 1
  {
    if i > 0 {
      RungHeight(steps, i - 1);
      assert AckPrecedence(steps[i - 1]) < AckPrecedence(steps[i]);
    }
  }

  /**
   A rising ladder has at most three rungs; a rung that is no acknowledgement
   can only be the first, and nothing follows AckTblEvents.
   */
  lemma RisingLadderShape(steps: seq<SettingStep>)
    requires Rising(steps) && LadderSteps(steps)
    ensures |steps| <= 3
    ensures forall i :: 0 <= i < |steps| && steps[i] in {Nack, Timeout, SessionCleared} ==> i == 0
    ensures forall i :: 0 <= i < |steps| && steps[i] == AckTblEvents ==> i == |steps| - 1
    ensures forall i :: 0 <= i < |steps| && steps[i] == AckReasonSetting ==> i <= 1
  {
    forall i | 0 <= i < |steps|
      ensures AckPrecedence(steps[i]) >= if i == 0 then 0 else i + 1
      ensures i < |steps| - 1 ==> AckPrecedence(steps[i]) < AckPrecedence(steps[|steps| - 1]) <= 3
    {
      RungHeight(steps, i);
    }
    if steps != [] { RungHeight(steps, |steps| - 1); }
  }
}
