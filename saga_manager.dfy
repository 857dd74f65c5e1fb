/**
 * The saga manager: runs the current step, ticks the state machine, saves, and repeats while
 * the saga drives itself; resumes a saga when a participant's response arrives.
 *
 * Drive and Respond are the specification of one run and of one response, as a trace of
 * effects; the class SagaManager performs them step by step and is proved to produce exactly
 * that trace and the matching store.
 */
module Orchestration {
  import opened Wrappers
  import opened Commands
  import opened Steps
  import opened SagaMachine
  import opened SagaStore

  /** The routing key every command is published under. */
  const CommandTopic: string := "create_order_saga.command"

  /** The body of a published command. */
  datatype CommandMessage = CommandMessage(sagaId: SagaId, name: string, payload: Data)

  /** What the manager does to the world, in order. */
  datatype Effect =
    | Invoked(callback: Callback, sagaId: SagaId)            // a local action or compensation ran
    | Published(topic: string, message: CommandMessage)      // a command went to a participant
    | Saved(id: SagaId, record: Record)                      // saga_dao.save, an upsert
    | Updated(id: SagaId, record: Record)                    // saga_dao.update

  /** The exceptions that leave the manager. */
  datatype Failure =
    | SagaNotFound(id: SagaId)          // a response names a saga the store does not hold
    | UnregisteredSaga(id: SagaId)      // its row names no registered class: the base Saga has no plan and no name
    | CallbackNotSet(step: int)         // the callback the step needs is None, so calling it raises

  /**
   * The outcome of driving a saga: the effects in order, where the saga ended, how many
   * rounds (run step, tick, save) completed, and the exception that stopped it, if any.
   */
  datatype Run = Run(effects: seq<Effect>, final: Config, rounds: nat, failure: Option<Failure>)

  /** The participant callbacks: the command each produces for a saga. */
  type Producer = (Callback, SagaId, Data) -> Command

  /** The callback a step runs: its compensation in the compensation phase, else its action. */
  function Chosen(step: StepDef, status: Status): (r: Option<Callback>)
    ensures r in {step.callback, step.compensationCallback}
    ensures r == step.compensationCallback <== status == Compensation
    ensures r == step.callback <== status != Compensation
  {
    if status == Compensation then step.compensationCallback else step.callback
  }

  /**
   * `run_current_step`: a local step runs one callback and publishes nothing; a participant
   * step publishes exactly one command, under CommandTopic.
   */
  function RunStep(plan: seq<StepDef>, id: SagaId, data: Data, c: Config, produce: Producer)
    : (r: Result<seq<Effect>, Failure>)
    requires InBounds(plan, c.step)
    ensures r.Err? <==> Chosen(plan[c.step], c.status).None?
    ensures r.Err? ==> r.error == CallbackNotSet(c.step)
    ensures r.Ok? ==> |r.value| == 1
    ensures r.Ok? ==> (r.value[0].Invoked? <==> plan[c.step].LocalStepDef?)
    ensures r.Ok? && r.value[0].Invoked? ==> r.value[0] == Invoked(Chosen(plan[c.step], c.status).value, id)
    ensures r.Ok? && r.value[0].Published? ==> r.value[0].topic == CommandTopic
  {
    var stepDef := plan[c.step];
    match Chosen(stepDef, c.status)
    case None => Err(CallbackNotSet(c.step))
    case Some(callback) =>
      if stepDef.LocalStepDef? then Ok([Invoked(callback, id)])
      else
        var command := produce(callback, id, data);
        Ok([Published(CommandTopic, CommandMessage(command.sagaId, command.name, command.payload))])
  }

  /**
   * The message a participant step publishes carries the saga id, name and payload of the
   * command its producer returns: the command producer forward, the compensating one in
   * compensation.
   */
  lemma ParticipantStepPublishesItsCommand(plan: seq<StepDef>, id: SagaId, data: Data, c: Config, produce: Producer)
    requires InBounds(plan, c.step) && plan[c.step].ParticipantStepDef?
    requires Chosen(plan[c.step], c.status).Some?
    ensures var command := produce(Chosen(plan[c.step], c.status).value, id, data);
      RunStep(plan, id, data, c, produce)
      == Ok([Published(CommandTopic, CommandMessage(command.sagaId, command.name, command.payload))])
  {
  }

  /** One round of `run_saga` before the save: run the current step, then tick. */
  function Round(plan: seq<StepDef>, id: SagaId, data: Data, c: Config, produce: Producer)
    : (r: Result<(seq<Effect>, Config), Failure>)
    requires InBounds(plan, c.step)
    ensures r.Err? <==> Chosen(plan[c.step], c.status).None?
    ensures r.Ok? ==> r.value.1 == NextOnTick(plan, c)
  {
    match RunStep(plan, id, data, c, produce)
    case Err(e) => Err(e)
    case Ok(effects) => Ok((effects, NextOnTick(plan, c)))
  }

  function Prepend(effects: seq<Effect>, rounds: nat, r: Run): Run {
    Run(effects + r.effects, r.final, rounds + r.rounds, r.failure)
  }

  /**
   * `run_saga`: rounds of run step, tick, save, repeated while the status is pending or
   * compensation. A run that does not fail ends waiting for a response or terminal; a run
   * started forward never enters compensation, and a compensating run never moves forward.
   */
  function Drive(t: SagaType, id: SagaId, data: Data, c: Config, produce: Producer): (r: Run)
    requires InBounds(t.plan, c.step)
    ensures InBounds(t.plan, r.final.step)
    ensures r.failure.None? ==> r.rounds >= 1 && !SelfDriving(r.final.status)
    ensures r.failure.Some? ==> Chosen(t.plan[r.final.step], r.final.status).None?
    ensures r.failure.Some? ==> r.failure.value == CallbackNotSet(r.final.step)
    ensures r.failure.Some? && r.rounds > 0 ==> SelfDriving(r.final.status)
    ensures r.rounds == 0 ==> r.final == c && r.effects == []
    decreases Rank(t.plan, c)
  {
    match Round(t.plan, id, data, c, produce)
    case Err(e) => Run([], c, 0, Some(e))
    case Ok((stepEffects, next)) =>
      var round := stepEffects + [Saved(id, Record(t.name, data, next.step, next.status))];
      if SelfDriving(next.status) then Prepend(round, 1, Drive(t, id, data, next, produce))
      else Run(round, next, 1, None)
  }

  /** One unfolding of Drive: a failed round ends the run, a completed one is followed by the rest. */
  lemma DriveUnfolds(t: SagaType, id: SagaId, data: Data, c: Config, produce: Producer)
    requires InBounds(t.plan, c.step)
    ensures var round := Round(t.plan, id, data, c, produce);
      && (round.Err? ==> Drive(t, id, data, c, produce) == Run([], c, 0, Some(round.error)))
      && (round.Ok? ==>
            var next := round.value.1;
            var effects := round.value.0 + [Saved(id, Record(t.name, data, next.step, next.status))];
            Drive(t, id, data, c, produce)
            == if SelfDriving(next.status) then Prepend(effects, 1, Drive(t, id, data, next, produce))
               else Run(effects, next, 1, None))
  {
  }

  lemma PrependTwice(a: seq<Effect>, m: nat, b: seq<Effect>, n: nat, r: Run)
    ensures Prepend(a, m, Prepend(b, n, r)) == Prepend(a + b, m + n, r)
  {
    assert a + (b + r.effects) == (a + b) + r.effects;
  }

  lemma ConcatAssoc(a: seq<Effect>, b: seq<Effect>, c: seq<Effect>)
    ensures a + b + c == a + (b + c)
  {
  }

  /** The row for `id`, if its class is registered, holds an index inside that class's plan. */
  predicate TargetInBounds(classes: map<string, SagaType>, table: Table, id: SagaId) {
    id in table && table[id].name in classes ==> InBounds(classes[table[id].name].plan, table[id].currentStep)
  }

  /**
   * `handle_saga_command_response`: load the saga, apply the response once, update once, and
   * drive it again only when it is pending or in compensation.
   */
  function Respond(classes: map<string, SagaType>, table: Table, response: CommandResponse, produce: Producer)
    : (r: Result<Run, Failure>)
    requires TargetInBounds(classes, table, response.sagaId)
    ensures response.sagaId !in table ==> r == Err(SagaNotFound(response.sagaId))
    ensures response.sagaId in table && table[response.sagaId].name !in classes
            ==> r == Err(UnregisteredSaga(response.sagaId))
    ensures r.Ok? ==> r.value.effects != [] && r.value.effects[0].Updated?
                      && r.value.effects[0].id == response.sagaId
  {
    match GetOneById(classes, table, response.sagaId)
    case None => Err(SagaNotFound(response.sagaId))
    case Some(loaded) =>
      match loaded.sagaClass
      case BaseSaga => Err(UnregisteredSaga(response.sagaId))
      case Registered(t) =>
        var next := NextOnResponse(t.plan, Config(loaded.currentStep, loaded.status), response.ok);
        var update := Updated(loaded.id, Record(t.name, loaded.data, next.step, next.status));
        if SelfDriving(next.status) then Ok(Prepend([update], 0, Drive(t, loaded.id, loaded.data, next, produce)))
        else Ok(Run([update], next, 0, None))
  }

  class SagaManager {
    const dao: SagaDao
    const produce: Producer
    /** Every effect so far, in order. */
    var trace: seq<Effect>

    constructor (dao: SagaDao, produce: Producer)
      ensures this.dao == dao && this.produce == produce && trace == []
    {
      this.dao := dao;
      this.produce := produce;
      trace := [];
    }

    /** Creates a saga at step 0, pending, with the given data, and runs it. */
    method StartSaga(t: SagaType, id: SagaId, data: Data) returns (saga: Saga, failure: Option<Failure>)
      requires |t.plan| > 0
      modifies this`trace, dao`table
      ensures fresh(saga) && saga.Valid()
      ensures saga.id == id && saga.name == t.name && saga.plan == t.plan && saga.data == data
      ensures var run := Drive(t, id, data, Config(0, Pending), produce);
        && trace == old(trace) + run.effects
        && saga.Snapshot() == run.final
        && failure == run.failure
        && dao.table == if run.rounds == 0 then old(dao.table) else old(dao.table)[id := RecordOf(saga)]
    {
      saga := new Saga(t, id, data, 0, Pending);
      failure := RunSaga(saga);
    }

    method RunCurrentStep(saga: Saga) returns (failure: Option<Failure>)
      requires InBounds(saga.plan, saga.currentStep)
      modifies this`trace
      ensures match RunStep(saga.plan, saga.id, saga.data, saga.Snapshot(), produce)
        case Ok(effects) => failure == None && trace == old(trace) + effects
        case Err(e) => failure == Some(e) && trace == old(trace)
    {
      var isCompensation := saga.status == Compensation;
      var stepDef := saga.CurrentStepDef();
      if saga.IsLocalStep() {
        var callback := if isCompensation then stepDef.compensationCallback else stepDef.callback;
        if callback.None? {
          return Some(CallbackNotSet(saga.currentStep));
        }
        trace := trace + [Invoked(callback.value, saga.id)];
      }
      if saga.IsParticipantStep() {
        var producer := if isCompensation then stepDef.compensationCallback else stepDef.callback;
        if producer.None? {
          return Some(CallbackNotSet(saga.currentStep));
        }
        var command := produce(producer.value, saga.id, saga.data);
        trace := trace + [Published(CommandTopic, CommandMessage(command.sagaId, command.name, command.payload))];
      }
      failure := None;
    }

    /** One round of `run_saga`: run the current step, tick, save. */
    method RunRound(saga: Saga) returns (failure: Option<Failure>, ghost effects: seq<Effect>)
      requires saga.Valid() && InBounds(saga.plan, saga.currentStep)
      modifies this`trace, dao`table, saga`currentStep, saga`status, saga`state
      ensures saga.Valid() && InBounds(saga.plan, saga.currentStep)
      ensures var round := Round(saga.plan, saga.id, saga.data, old(saga.Snapshot()), produce);
        && (round.Err? ==>
              && failure == Some(round.error) && trace == old(trace) && dao.table == old(dao.table)
              && saga.Snapshot() == old(saga.Snapshot()))
        && (round.Ok? ==>
              && failure == None && saga.Snapshot() == round.value.1
              && trace == old(trace) + round.value.0 + [Saved(saga.id, RecordOf(saga))]
              && dao.table == old(dao.table)[saga.id := RecordOf(saga)])
      ensures trace == old(trace) + effects
      ensures var t := SagaType(saga.name, saga.plan);
        && (failure.Some? ==> Drive(t, saga.id, saga.data, old(saga.Snapshot()), produce)
                              == Run([], saga.Snapshot(), 0, failure))
        && (failure.None? ==> Drive(t, saga.id, saga.data, old(saga.Snapshot()), produce)
                              == if SelfDriving(saga.status) then Prepend(effects, 1, Drive(t, saga.id, saga.data, saga.Snapshot(), produce))
                                 else Run(effects, saga.Snapshot(), 1, None))
    {
      DriveUnfolds(SagaType(saga.name, saga.plan), saga.id, saga.data, saga.Snapshot(), produce);
      effects := [];
      ghost var before := saga.Snapshot();
      failure := RunCurrentStep(saga);
      if failure.None? {
        ghost var stepEffects := RunStep(saga.plan, saga.id, saga.data, before, produce).value;
        saga.Tick();
        var saved := dao.Create(saga);
        trace := trace + [Saved(saga.id, RecordOf(saga))];
        effects := stepEffects + [Saved(saga.id, RecordOf(saga))];
        ConcatAssoc(old(trace), stepEffects, [Saved(saga.id, RecordOf(saga))]);
      }
    }

    /** Rounds of run step, tick and save while the saga is pending or in compensation. */
    method RunSaga(saga: Saga) returns (failure: Option<Failure>)
      requires saga.Valid() && InBounds(saga.plan, saga.currentStep)
      modifies this`trace, dao`table, saga`currentStep, saga`status, saga`state
      ensures saga.Valid()
      ensures var run := Drive(SagaType(saga.name, saga.plan), saga.id, saga.data, old(saga.Snapshot()), produce);
        && trace == old(trace) + run.effects
        && saga.Snapshot() == run.final
        && failure == run.failure
        && dao.table == if run.rounds == 0 then old(dao.table) else old(dao.table)[saga.id := RecordOf(saga)]
    {
      ghost var t, id, data := SagaType(saga.name, saga.plan), saga.id, saga.data;
      ghost var total := Drive(t, id, data, saga.Snapshot(), produce);
      ghost var done: seq<Effect> := [];
      ghost var rounds: nat := 0;
      var more := true;
      failure := None;
      while more
        invariant saga.Valid() && InBounds(t.plan, saga.currentStep)
        invariant trace == old(trace) + done
        invariant more ==> failure == None
        invariant more ==> total == Prepend(done, rounds, Drive(t, id, data, saga.Snapshot(), produce))
        invariant !more ==> total == Run(done, saga.Snapshot(), rounds, failure)
        invariant rounds == 0 ==> dao.table == old(dao.table)
        invariant rounds > 0 ==> dao.table == old(dao.table)[id := RecordOf(saga)]
        decreases if more then Rank(t.plan, saga.Snapshot()) + 1 else 0
      {
        ghost var before := saga.Snapshot();
        ghost var effects;
        failure, effects := RunRound(saga);
        if failure.Some? {
          assert done + [] == done;
          more := false;
        } else {
          if SelfDriving(saga.status) {
            PrependTwice(done, rounds, effects, 1, Drive(t, id, data, saga.Snapshot(), produce));
          }
          ConcatAssoc(old(trace), done, effects);
          done := done + effects;
          rounds := rounds + 1;
          more := SelfDriving(saga.status);
        }
      }
    }

    /**
     * Loads the saga a response is for, applies the response, updates the row, and resumes
     * driving when the saga is pending or in compensation.
     */
    method HandleSagaCommandResponse(response: CommandResponse) returns (failure: Option<Failure>)
      requires TargetInBounds(dao.sagaClasses, dao.table, response.sagaId)
      modifies this`trace, dao`table
      ensures match Respond(dao.sagaClasses, old(dao.table), response, produce)
        case Err(e) => failure == Some(e) && trace == old(trace) && dao.table == old(dao.table)
        case Ok(run) =>
          var rec := old(dao.table)[response.sagaId];
          && failure == run.failure
          && trace == old(trace) + run.effects
          && dao.table == old(dao.table)[response.sagaId :=
               Record(dao.sagaClasses[rec.name].name, rec.data, run.final.step, run.final.status)]
    {
      var loaded := dao.Get(response.sagaId);
      if loaded.None? {
        return Some(SagaNotFound(response.sagaId));
      }
      var row := loaded.value;
      if row.sagaClass.BaseSaga? {
        return Some(UnregisteredSaga(response.sagaId));
      }
      var saga := new Saga(row.sagaClass.sagaType, row.id, row.data, row.currentStep, row.status);
      saga.TickCommandResponse(response.ok);
      var updated := dao.Update(saga);
      trace := trace + [Updated(saga.id, RecordOf(saga))];
      if SelfDriving(saga.status) {
        ghost var rest := Drive(SagaType(saga.name, saga.plan), saga.id, saga.data, saga.Snapshot(), produce);
        ConcatAssoc(old(trace), [Updated(saga.id, RecordOf(saga))], rest.effects);
        failure := RunSaga(saga);
      } else {
        failure := None;
      }
    }
  }
}
