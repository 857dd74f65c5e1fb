/**
 * The earlier saga manager, saga_manager.backup.py. It does not tick the state machine: it
 * runs a step and then assigns `status` and `current_step` itself, and applies a response the
 * same way. LegacyRound, LegacyDrive, LegacyNextOnResponse and LegacyRespond are its
 * specification; the class LegacyManager performs it step by step. The lemmas say where it
 * agrees with the manager over saga.py and where it does not.
 */
module LegacyOrchestration {
  import opened Wrappers
  import opened Commands
  import opened Steps
  import opened SagaMachine
  import opened SagaStore
  import opened Orchestration

  /**
   * One round of the legacy `run_saga` before the save. A local step runs its callback and
   * then moves on (or back, in compensation), ending done at the last (or first) step; a
   * participant step publishes its command and always waits, even at the last step.
   */
  function LegacyRound(plan: seq<StepDef>, id: SagaId, data: Data, c: Config, produce: Producer)
    : (r: Result<(seq<Effect>, Config), Failure>)
    requires InBounds(plan, c.step)
    ensures r.Err? <==> Chosen(plan[c.step], c.status).None?
    ensures r.Err? ==> r.error == CallbackNotSet(c.step)
    ensures r.Ok? ==> InBounds(plan, r.value.1.step) && |r.value.0| == 1
    ensures r.Ok? && plan[c.step].LocalStepDef? ==>
              r.value.0 == [Invoked(Chosen(plan[c.step], c.status).value, id)]
    ensures r.Ok? && SelfDriving(c.status) && SelfDriving(r.value.1.status) ==> Rank(plan, r.value.1) < Rank(plan, c)
  {
    var stepDef := plan[c.step];
    var isCompensation := c.status == Compensation;
    match Chosen(stepDef, c.status)
    case None => Err(CallbackNotSet(c.step))
    case Some(callback) =>
      if stepDef.LocalStepDef? then
        if isCompensation then
          Ok(([Invoked(callback, id)], if c.step == 0 then c.(status := Done) else c.(step := c.step - 1)))
        else
          Ok(([Invoked(callback, id)], if AtLastStep(plan, c) then c.(status := Done) else Config(c.step + 1, Pending)))
      else
        var command := produce(callback, id, data);
        var waiting := if isCompensation then Compensating else Processing;
        Ok(([Published(CommandTopic, CommandMessage(command.sagaId, command.name, command.payload))],
            c.(status := waiting)))
  }

  /**
   * A participant step publishes one command under the command topic and then waits for the
   * response, processing forward or compensating backward, whatever its position in the plan.
   */
  lemma LegacyParticipantStepWaits(plan: seq<StepDef>, id: SagaId, data: Data, c: Config, produce: Producer)
    requires InBounds(plan, c.step) && plan[c.step].ParticipantStepDef?
    requires Chosen(plan[c.step], c.status).Some?
    ensures var r := LegacyRound(plan, id, data, c, produce);
      && r.Ok? && r.value.0[0].Published? && r.value.0[0].topic == CommandTopic
      && r.value.1 == c.(status := if c.status == Compensation then Compensating else Processing)
  {
  }

  /** The legacy `run_saga`: rounds of step-and-assign and save while pending or in compensation. */
  function LegacyDrive(t: SagaType, id: SagaId, data: Data, c: Config, produce: Producer): (r: Run)
    requires InBounds(t.plan, c.step) && SelfDriving(c.status)
    ensures InBounds(t.plan, r.final.step)
    ensures r.failure.None? ==> r.rounds >= 1 && !SelfDriving(r.final.status)
    ensures r.failure.Some? ==> Chosen(t.plan[r.final.step], r.final.status).None?
    ensures r.failure.Some? ==> r.failure.value == CallbackNotSet(r.final.step) && SelfDriving(r.final.status)
    ensures r.rounds == 0 ==> r.final == c && r.effects == []
    decreases Rank(t.plan, c)
  {
    var round := LegacyRound(t.plan, id, data, c, produce);
    if round.Err? then Run([], c, 0, Some(round.error))
    else
      var next := round.value.1;
      var effects := round.value.0 + [Saved(id, Record(t.name, data, next.step, next.status))];
      if SelfDriving(next.status) then Prepend(effects, 1, LegacyDrive(t, id, data, next, produce))
      else Run(effects, next, 1, None)
  }

  /**
   * The legacy response rule. It looks at the status only to tell `compensating` apart: a
   * successful response to any other status advances, and a failed one always steps back.
   */
  function LegacyNextOnResponse(plan: seq<StepDef>, c: Config, ok: bool): (r: Config)
    ensures InBounds(plan, c.step) ==> InBounds(plan, r.step)
    ensures ok && c.status == Compensating ==> r.status in {Done, Compensation}
    ensures ok && c.status != Compensating ==> r.status in {Done, Pending}
    ensures !ok ==> r.status in {Failed, Compensation}
    ensures r.status == Failed ==> !ok && r.step == c.step == 0
  {
    if ok then
      if c.status == Compensating then
        if c.step == 0 then c.(status := Done) else Config(c.step - 1, Compensation)
      else if AtLastStep(plan, c) then c.(status := Done)
      else Config(c.step + 1, Pending)
    else if c.step == 0 then c.(status := Failed)
    else Config(c.step - 1, Compensation)
  }

  /** The legacy `handle_saga_command_response`: apply the rule, update once, drive on if needed. */
  function LegacyRespond(classes: map<string, SagaType>, table: Table, response: CommandResponse, produce: Producer)
    : (r: Result<Run, Failure>)
    requires TargetInBounds(classes, table, response.sagaId)
    ensures response.sagaId !in table ==> r == Err(SagaNotFound(response.sagaId))
    ensures response.sagaId in table && table[response.sagaId].name !in classes
            ==> r == Err(UnregisteredSaga(response.sagaId))
    ensures r.Ok? ==> r.value.effects != [] && r.value.effects[0].Updated?
                      && r.value.effects[0].id == response.sagaId
  {
    match GetOneById(classes, table, response.sagaId)
    case None => Err(SagaNotFound(response.sagaId))
    case Some(loaded) =>
      match loaded.sagaClass
      case BaseSaga => Err(UnregisteredSaga(response.sagaId))
      case Registered(t) =>
        var next := LegacyNextOnResponse(t.plan, Config(loaded.currentStep, loaded.status), response.ok);
        var update := Updated(loaded.id, Record(t.name, loaded.data, next.step, next.status));
        if SelfDriving(next.status) then Ok(Prepend([update], 0, LegacyDrive(t, loaded.id, loaded.data, next, produce)))
        else Ok(Run([update], next, 0, None))
  }

  lemma LegacyRespondUnfolds(classes: map<string, SagaType>, table: Table, response: CommandResponse,
                             produce: Producer)
    requires TargetInBounds(classes, table, response.sagaId)
    requires response.sagaId in table && table[response.sagaId].name in classes
    ensures var rec := table[response.sagaId];
      var t := classes[rec.name];
      var next := LegacyNextOnResponse(t.plan, Config(rec.currentStep, rec.status), response.ok);
      var update := Updated(response.sagaId, Record(t.name, rec.data, next.step, next.status));
      LegacyRespond(classes, table, response, produce)
      == if SelfDriving(next.status) then Ok(Prepend([update], 0, LegacyDrive(t, response.sagaId, rec.data, next, produce)))
         else Ok(Run([update], next, 0, None))
  {
  }

  /** The two managers apply a response alike to a saga that is waiting for one. */
  lemma ResponseRulesAgreeWhileWaiting(plan: seq<StepDef>, c: Config, ok: bool)
    requires c.status in {Processing, Compensating}
    ensures LegacyNextOnResponse(plan, c, ok) == NextOnResponse(plan, c, ok)
  {
  }

  /**
   * They disagree elsewhere: a successful response to a saga that already failed at its first
   * step revives it under the legacy rule, and is ignored by saga.py.
   */
  lemma LegacyRevivesFailedSaga(plan: seq<StepDef>)
    requires |plan| == 2
    ensures LegacyNextOnResponse(plan, Config(0, Failed), true) == Config(1, Pending)
    ensures NextOnResponse(plan, Config(0, Failed), true) == Config(0, Failed)
  {
  }

  /**
   * The legacy response rule for every status. A failed response steps back, or fails at the
   * first step, whatever the status; a successful one steps back from compensating and goes
   * forward from any other status, done at the last step. It is saga.py's rule for a
   * processing saga, or for a compensating one on success.
   */
  lemma LegacyResponseRule(plan: seq<StepDef>, c: Config, ok: bool)
    ensures LegacyNextOnResponse(plan, c, ok)
            == if !ok then (if c.step == 0 then Config(0, Failed) else Config(c.step - 1, Compensation))
               else if c.status == Compensating then (if c.step == 0 then Config(0, Done) else Config(c.step - 1, Compensation))
               else if c.step == |plan| - 1 then Config(c.step, Done)
               else Config(c.step + 1, Pending)
    ensures LegacyNextOnResponse(plan, c, ok)
            == NextOnResponse(plan, Config(c.step, if ok && c.status == Compensating then Compensating else Processing), ok)
  {
  }

  /**
   * A response to a saga that is not waiting for one is ignored by saga.py, while the legacy
   * rule moves it: a success reopens a failed or done saga forward, and a failure sends a done
   * saga back into compensation.
   */
  lemma LegacyMovesSagasNotWaiting(plan: seq<StepDef>, c: Config, ok: bool)
    requires c.status !in {Processing, Compensating}
    ensures NextOnResponse(plan, c, ok) == c
    ensures ok && c.step != |plan| - 1 ==> LegacyNextOnResponse(plan, c, ok) == Config(c.step + 1, Pending)
    ensures !ok && c.step != 0 ==> LegacyNextOnResponse(plan, c, ok) == Config(c.step - 1, Compensation)
  {
  }

  /**
   * A local legacy round moves the saga as the tick does: back one step in compensation, done
   * at the first step; otherwise on one step, done at the last step.
   */
  lemma LegacyLocalRoundRule(plan: seq<StepDef>, id: SagaId, data: Data, c: Config, produce: Producer)
    requires InBounds(plan, c.step) && plan[c.step].LocalStepDef? && Chosen(plan[c.step], c.status).Some?
    ensures var r := LegacyRound(plan, id, data, c, produce);
      && r.Ok?
      && r.value.1 == (if c.status == Compensation then (if c.step == 0 then Config(0, Done) else Config(c.step - 1, Compensation))
                       else if c.step == |plan| - 1 then Config(c.step, Done)
                       else Config(c.step + 1, Pending))
      && (SelfDriving(c.status) ==> r.value.1 == NextOnTick(plan, c))
  {
  }

  /**
   * From pending or compensation, a legacy round and a manager round agree exactly when the
   * step is not a participant step at the end of the plan: there the manager ticks to done
   * and the legacy manager waits for the response.
   */
  lemma RoundsAgreeUnlessParticipantLast(plan: seq<StepDef>, id: SagaId, data: Data, c: Config, produce: Producer)
    requires InBounds(plan, c.step) && SelfDriving(c.status)
    ensures LegacyRound(plan, id, data, c, produce) == Round(plan, id, data, c, produce)
            <==> !(plan[c.step].ParticipantStepDef? && AtLastStep(plan, c) && Chosen(plan[c.step], c.status).Some?)
  {
    if plan[c.step].ParticipantStepDef? && AtLastStep(plan, c) && Chosen(plan[c.step], c.status).Some? {
      var legacy := LegacyRound(plan, id, data, c, produce);
      var round := Round(plan, id, data, c, produce);
      assert legacy.value.1.status != Done;
      assert round.value.1.status == Done;
    }
  }

  /** When the plan ends with a local step, the legacy `run_saga` drives a saga exactly as the manager does. */
  lemma {:induction false} DrivesAgreeWhenLastStepLocal(t: SagaType, id: SagaId, data: Data, c: Config, produce: Producer)
    requires InBounds(t.plan, c.step) && SelfDriving(c.status)
    requires t.plan[|t.plan| - 1].LocalStepDef?
    ensures LegacyDrive(t, id, data, c, produce) == Drive(t, id, data, c, produce)
    decreases Rank(t.plan, c)
  {
    RoundsAgreeUnlessParticipantLast(t.plan, id, data, c, produce);
    DriveUnfolds(t, id, data, c, produce);
    var round := Round(t.plan, id, data, c, produce);
    if round.Ok? && SelfDriving(round.value.1.status) {
      DrivesAgreeWhenLastStepLocal(t, id, data, round.value.1, produce);
    }
  }

  /**
   * For a saga waiting for a response in a plan that ends with a local step, the two managers
   * handle the response identically, up to the end of the run it resumes.
   */
  lemma RespondersAgreeWhileWaiting(classes: map<string, SagaType>, table: Table, response: CommandResponse,
                                    produce: Producer)
    requires TargetInBounds(classes, table, response.sagaId)
    requires response.sagaId in table && table[response.sagaId].name in classes
    requires table[response.sagaId].status in {Processing, Compensating}
    requires var plan := classes[table[response.sagaId].name].plan; plan[|plan| - 1].LocalStepDef?
    ensures LegacyRespond(classes, table, response, produce) == Respond(classes, table, response, produce)
  {
    var rec := table[response.sagaId];
    var t := classes[rec.name];
    var c := Config(rec.currentStep, rec.status);
    ResponseRulesAgreeWhileWaiting(t.plan, c, response.ok);
    var next := NextOnResponse(t.plan, c, response.ok);
    if SelfDriving(next.status) {
      DrivesAgreeWhenLastStepLocal(t, response.sagaId, rec.data, next, produce);
    }
  }

  lemma LegacyDriveUnfolds(t: SagaType, id: SagaId, data: Data, c: Config, produce: Producer)
    requires InBounds(t.plan, c.step) && SelfDriving(c.status)
    ensures var round := LegacyRound(t.plan, id, data, c, produce);
      && (round.Err? ==> LegacyDrive(t, id, data, c, produce) == Run([], c, 0, Some(round.error)))
      && (round.Ok? ==>
            var next := round.value.1;
            var effects := round.value.0 + [Saved(id, Record(t.name, data, next.step, next.status))];
            LegacyDrive(t, id, data, c, produce)
            == if SelfDriving(next.status) then Prepend(effects, 1, LegacyDrive(t, id, data, next, produce))
               else Run(effects, next, 1, None))
  {
  }

  /**
   * The legacy manager. It writes `status` and `current_step` directly and never calls
   * `set_status`, so the handler a saga object was built with is never rebound: its methods
   * leave `state` alone, and after a run it no longer serves the saga's status.
   */
  class LegacyManager {
    const dao: SagaDao
    const produce: Producer
    /** Every effect so far, in order. */
    var trace: seq<Effect>

    constructor (dao: SagaDao, produce: Producer)
      ensures this.dao == dao && this.produce == produce && trace == []
    {
      this.dao := dao;
      this.produce := produce;
      trace := [];
    }

    /** Creates a saga at step 0, pending, with a fresh id, and runs it. */
    method StartSaga(t: SagaType, id: SagaId, data: Data) returns (saga: Saga, failure: Option<Failure>)
      requires |t.plan| > 0
      modifies this`trace, dao`table
      ensures fresh(saga) && saga.state == PendingState
      ensures saga.id == id && saga.name == t.name && saga.plan == t.plan && saga.data == data
      ensures var run := LegacyDrive(t, id, data, Config(0, Pending), produce);
        && trace == old(trace) + run.effects
        && saga.Snapshot() == run.final
        && failure == run.failure
        && dao.table == if run.rounds == 0 then old(dao.table) else old(dao.table)[id := RecordOf(saga)]
    {
      saga := new Saga(t, id, data, 0, Pending);
      failure := RunSaga(saga);
    }

    /** One round of the legacy `run_saga`: run the step, assign the new step and status, save. */
    method RunRound(saga: Saga) returns (failure: Option<Failure>, ghost effects: seq<Effect>)
      requires InBounds(saga.plan, saga.currentStep) && SelfDriving(saga.status)
      modifies this`trace, dao`table, saga`currentStep, saga`status
      ensures InBounds(saga.plan, saga.currentStep)
      ensures var round := LegacyRound(saga.plan, saga.id, saga.data, old(saga.Snapshot()), produce);
        && (round.Err? ==>
              && failure == Some(round.error) && trace == old(trace) && dao.table == old(dao.table)
              && saga.Snapshot() == old(saga.Snapshot()))
        && (round.Ok? ==>
              && failure == None && saga.Snapshot() == round.value.1
              && trace == old(trace) + round.value.0 + [Saved(saga.id, RecordOf(saga))]
              && dao.table == old(dao.table)[saga.id := RecordOf(saga)])
      ensures trace == old(trace) + effects
      ensures var t := SagaType(saga.name, saga.plan);
        && (failure.Some? ==> LegacyDrive(t, saga.id, saga.data, old(saga.Snapshot()), produce)
                              == Run([], saga.Snapshot(), 0, failure))
        && (failure.None? ==> LegacyDrive(t, saga.id, saga.data, old(saga.Snapshot()), produce)
                              == if SelfDriving(saga.status) then Prepend(effects, 1, LegacyDrive(t, saga.id, saga.data, saga.Snapshot(), produce))
                                 else Run(effects, saga.Snapshot(), 1, None))
    {
      LegacyDriveUnfolds(SagaType(saga.name, saga.plan), saga.id, saga.data, saga.Snapshot(), produce);
      var stepEffects: seq<Effect>;
      var stepDef := saga.CurrentStepDef();
      var isCompensation := saga.status == Compensation;
      if stepDef.LocalStepDef? {
        if isCompensation {
          if stepDef.compensationCallback.None? {
            return Some(CallbackNotSet(saga.currentStep)), [];
          }
          stepEffects := [Invoked(stepDef.compensationCallback.value, saga.id)];
          trace := trace + stepEffects;
          if saga.IsFirstStep() {
            saga.status := Done;
          } else {
            saga.currentStep := saga.currentStep - 1;
          }
        } else {
          if stepDef.callback.None? {
            return Some(CallbackNotSet(saga.currentStep)), [];
          }
          stepEffects := [Invoked(stepDef.callback.value, saga.id)];
          trace := trace + stepEffects;
          if saga.IsLastStep() {
            saga.status := Done;
          } else {
            saga.currentStep := saga.currentStep + 1;
            saga.status := Pending;
          }
        }
      } else {
        var producer := if isCompensation then stepDef.compensationCallback else stepDef.callback;
        if producer.None? {
          return Some(CallbackNotSet(saga.currentStep)), [];
        }
        var command := produce(producer.value, saga.id, saga.data);
        saga.status := if isCompensation then Compensating else Processing;
        stepEffects := [Published(CommandTopic, CommandMessage(command.sagaId, command.name, command.payload))];
        trace := trace + stepEffects;
      }
      var saved := dao.Create(saga);
      trace := trace + [Saved(saga.id, RecordOf(saga))];
      effects := stepEffects + [Saved(saga.id, RecordOf(saga))];
      ConcatAssoc(old(trace), stepEffects, [Saved(saga.id, RecordOf(saga))]);
      failure := None;
    }

    /** Rounds while the saga is pending or in compensation. */
    method RunSaga(saga: Saga) returns (failure: Option<Failure>)
      requires InBounds(saga.plan, saga.currentStep) && SelfDriving(saga.status)
      modifies this`trace, dao`table, saga`currentStep, saga`status
      ensures var run := LegacyDrive(SagaType(saga.name, saga.plan), saga.id, saga.data, old(saga.Snapshot()), produce);
        && trace == old(trace) + run.effects
        && saga.Snapshot() == run.final
        && failure == run.failure
        && dao.table == if run.rounds == 0 then old(dao.table) else old(dao.table)[saga.id := RecordOf(saga)]
    {
      ghost var t, id, data := SagaType(saga.name, saga.plan), saga.id, saga.data;
      ghost var total := LegacyDrive(t, id, data, saga.Snapshot(), produce);
      ghost var done: seq<Effect> := [];
      ghost var rounds: nat := 0;
      var more := true;
      failure := None;
      while more
        invariant InBounds(t.plan, saga.currentStep)
        invariant more ==> SelfDriving(saga.status)
        invariant trace == old(trace) + done
        invariant more ==> failure == None
        invariant more ==> total == Prepend(done, rounds, LegacyDrive(t, id, data, saga.Snapshot(), produce))
        invariant !more ==> total == Run(done, saga.Snapshot(), rounds, failure)
        invariant rounds == 0 ==> dao.table == old(dao.table)
        invariant rounds > 0 ==> dao.table == old(dao.table)[id := RecordOf(saga)]
        decreases if more then Rank(t.plan, saga.Snapshot()) + 1 else 0
      {
        ghost var before := saga.Snapshot();
        ghost var effects;
        failure, effects := RunRound(saga);
        if failure.Some? {
          assert done + [] == done;
          more := false;
        } else {
          if SelfDriving(saga.status) {
            PrependTwice(done, rounds, effects, 1, LegacyDrive(t, id, data, saga.Snapshot(), produce));
          }
          ConcatAssoc(old(trace), done, effects);
          done := done + effects;
          rounds := rounds + 1;
          more := SelfDriving(saga.status);
        }
      }
    }

    /** The response rule of the legacy handler, written straight into the saga's fields. */
    static method ApplyResponse(saga: Saga, ok: bool)
      modifies saga`currentStep, saga`status
      ensures saga.Snapshot() == LegacyNextOnResponse(saga.plan, old(saga.Snapshot()), ok)
    {
      if ok {
        if saga.status == Compensating {
          if saga.IsFirstStep() {
            saga.status := Done;
          } else {
            saga.currentStep := saga.currentStep - 1;
            saga.status := Compensation;
          }
        } else if saga.IsLastStep() {
          saga.status := Done;
        } else {
          saga.currentStep := saga.currentStep + 1;
          saga.status := Pending;
        }
      } else if saga.IsFirstStep() {
        saga.status := Failed;
      } else {
        saga.currentStep := saga.currentStep - 1;
        saga.status := Compensation;
      }
    }

    /** Loads the saga, assigns the new step and status, updates, and resumes when needed. */
    method HandleSagaCommandResponse(response: CommandResponse) returns (failure: Option<Failure>)
      requires TargetInBounds(dao.sagaClasses, dao.table, response.sagaId)
      modifies this`trace, dao`table
      ensures match LegacyRespond(dao.sagaClasses, old(dao.table), response, produce)
        case Err(e) => failure == Some(e) && trace == old(trace) && dao.table == old(dao.table)
        case Ok(run) =>
          var rec := old(dao.table)[response.sagaId];
          && failure == run.failure
          && trace == old(trace) + run.effects
          && dao.table == old(dao.table)[response.sagaId :=
               Record(dao.sagaClasses[rec.name].name, rec.data, run.final.step, run.final.status)]
    {
      var loaded := dao.Get(response.sagaId);
      if loaded.None? {
        return Some(SagaNotFound(response.sagaId));
      }
      var row := loaded.value;
      if row.sagaClass.BaseSaga? {
        return Some(UnregisteredSaga(response.sagaId));
      }
      LegacyRespondUnfolds(dao.sagaClasses, dao.table, response, produce);
      var saga := new Saga(row.sagaClass.sagaType, row.id, row.data, row.currentStep, row.status);
      ApplyResponse(saga, response.ok);
      var updated := dao.Update(saga);
      trace := trace + [Updated(saga.id, RecordOf(saga))];
      if SelfDriving(saga.status) {
        ghost var rest := LegacyDrive(SagaType(saga.name, saga.plan), saga.id, saga.data, saga.Snapshot(), produce);
        ConcatAssoc(old(trace), [Updated(saga.id, RecordOf(saga))], rest.effects);
        failure := RunSaga(saga);
      } else {
        failure := None;
      }
    }
  }
}
