/**
 * The transition rules of the saga state machine, handler by handler, and the expectations of
 * the unit tests of orchestrated_saga/tests/test_saga.py checked against them. Where a test
 * expects something the code does not do, the lemma is named ...DoesNotHold and proves what
 * the code yields instead.
 */
module SagaRules {
  import opened Wrappers
  import opened Steps
  import opened SagaMachine

  /** The handler bound to a status identifies that status. */
  lemma HandlerIdentifiesStatus(s: Status, s': Status)
    ensures HandlerFor(s) == HandlerFor(s') <==> s == s'
  {
    assert StatusOf(HandlerFor(s)) == s && StatusOf(HandlerFor(s')) == s';
  }

  /** Pending.tick tests the last step before the step kind. */
  lemma PendingTickRule(plan: seq<StepDef>, k: int)
    requires InBounds(plan, k)
    ensures var r := NextOnTick(plan, Config(k, Pending));
      && (k == |plan| - 1 ==> r == Config(k, Done))
      && (k < |plan| - 1 && plan[k].ParticipantStepDef? ==> r == Config(k, Processing))
      && (k < |plan| - 1 && plan[k].LocalStepDef? ==> r == Config(k + 1, Pending))
  {
  }

  /** Processing advances on `tick` and on a successful response alike. */
  lemma ProcessingRule(plan: seq<StepDef>, k: int)
    ensures var forward := if k == |plan| - 1 then Config(k, Done) else Config(k + 1, Pending);
      && NextOnTick(plan, Config(k, Processing)) == forward
      && NextOnResponse(plan, Config(k, Processing), true) == forward
      && NextOnResponse(plan, Config(k, Processing), false)
         == if k == 0 then Config(k, Failed) else Config(k - 1, Compensation)
  {
  }

  /** Compensation.tick: a local step is undone, a participant step waits for its response. */
  lemma CompensationTickRule(plan: seq<StepDef>, k: int)
    requires InBounds(plan, k)
    ensures var r := NextOnTick(plan, Config(k, Compensation));
      && (plan[k].LocalStepDef? && k == 0 ==> r == Config(k, Done))
      && (plan[k].LocalStepDef? && k > 0 ==> r == Config(k - 1, Compensation))
      && (plan[k].ParticipantStepDef? && k == |plan| - 1 ==> r == Config(k, Done))
      && (plan[k].ParticipantStepDef? && k < |plan| - 1 ==> r == Config(k, Compensating))
  {
  }

  /** Compensating ignores `tick`; a response at the first step ends the saga, otherwise it steps back. */
  lemma CompensatingRule(plan: seq<StepDef>, k: int, ok: bool)
    ensures NextOnTick(plan, Config(k, Compensating)) == Config(k, Compensating)
    ensures NextOnResponse(plan, Config(k, Compensating), ok)
            == if k == 0 then Config(k, if ok then Done else Failed) else Config(k - 1, Compensation)
  {
  }

  /** Failed and Done absorb both events. */
  lemma TerminalIsAbsorbing(plan: seq<StepDef>, c: Config, ok: bool)
    requires IsTerminal(c.status)
    ensures NextOnTick(plan, c) == c && NextOnResponse(plan, c, ok) == c
  {
  }

  /** Pending and Compensation ignore command responses. */
  lemma SelfDrivingIgnoresResponses(plan: seq<StepDef>, c: Config, ok: bool)
    requires SelfDriving(c.status)
    ensures NextOnResponse(plan, c, ok) == c
  {
  }

  // The plans used by the unit tests.
  function Local(): StepDef { LocalStepDef(None, None) }
  function Participant(): StepDef { ParticipantStepDef(None, None) }

  lemma TestPendingToProcessingDoesNotHold()
    ensures NextOnTick([Participant()], Config(0, Pending)) == Config(0, Done)
  {
  }

  lemma TestPendingToDone()
    ensures NextOnTick([Local()], Config(0, Pending)) == Config(0, Done)
  {
  }

  lemma TestPendingNextStep()
    ensures NextOnTick([Local(), Local()], Config(0, Pending)) == Config(1, Pending)
  {
  }

  lemma TestProcessingToPending()
    ensures NextOnTick([Local(), Local()], Config(0, Processing)) == Config(1, Pending)
  {
  }

  lemma TestProcessingToDone()
    ensures NextOnTick([Local()], Config(0, Processing)) == Config(0, Done)
  {
  }

  lemma TestProcessingToPendingOnCommandResponse()
    ensures NextOnResponse([Local(), Local()], Config(0, Processing), true) == Config(1, Pending)
  {
  }

  lemma TestProcessingToDoneOnCommandResponse()
    ensures NextOnResponse([Local()], Config(0, Processing), true) == Config(0, Done)
  {
  }

  lemma TestProcessingToFailedOnCommandResponse()
    ensures NextOnResponse([], Config(0, Processing), false) == Config(0, Failed)
  {
  }

  lemma TestProcessingToCompensationOnCommandResponse()
    ensures NextOnResponse([], Config(1, Processing), false) == Config(0, Compensation)
  {
  }

  /** The first of the two tests named test_compensation_to_failed; the second one shadows it. */
  lemma TestCompensationToFailedLocalDoesNotHold()
    ensures NextOnTick([Local()], Config(0, Compensation)) == Config(0, Done)
  {
  }

  lemma TestCompensationToDecrementStep()
    ensures NextOnTick([Local(), Local()], Config(1, Compensation)) == Config(0, Compensation)
  {
  }

  lemma TestCompensationToFailedParticipantDoesNotHold()
    ensures NextOnTick([Participant()], Config(0, Compensation)) == Config(0, Done)
  {
  }

  lemma TestCompensationToCompensatingDoesNotHold()
    ensures NextOnTick([Local(), Participant()], Config(1, Compensation)) == Config(1, Done)
  {
  }

  lemma TestCompensatingToDoneOnCommandResponse()
    ensures NextOnResponse([Participant()], Config(0, Compensating), true) == Config(0, Done)
  {
  }

  lemma TestCompensatingToCompensationOnCommandResponse()
    ensures NextOnResponse([Local(), Participant()], Config(1, Compensating), true) == Config(0, Compensation)
  {
  }

  lemma TestCompensatingToFailedOnFailedCommandResponse()
    ensures NextOnResponse([Participant()], Config(0, Compensating), false) == Config(0, Failed)
  {
  }

  lemma TestCompensatingToCompensationOnFailedCommandResponse()
    ensures NextOnResponse([Local(), Participant()], Config(1, Compensating), false) == Config(0, Compensation)
  {
  }
}
