/**
 * What a run of the saga manager promises, proved about its specifications Drive and Respond
 * (and so, through the ensures of SagaManager's methods, about the manager itself): one save
 * per round and only of the saga being run, at most one published command per run, the phase
 * a run stays in, where all-local plans end, and what a response to a finished saga does.
 */
module OrchestrationProperties {
  import opened Wrappers
  import opened Commands
  import opened Steps
  import opened SagaMachine
  import opened SagaStore
  import opened Orchestration

  /** The outbox: every published command, as (topic, message), in order. */
  function Outbox(effects: seq<Effect>): (out: seq<(string, CommandMessage)>)
    ensures |out| <= |effects|
  {
    if effects == [] then []
    else (if effects[0].Published? then [(effects[0].topic, effects[0].message)] else [])
         + Outbox(effects[1..])
  }

  /** Every store write, as (id, record), in order, and whether it was an update. */
  function Writes(effects: seq<Effect>): (out: seq<(SagaId, Record, bool)>)
    ensures |out| <= |effects|
  {
    if effects == [] then []
    else (match effects[0]
          case Saved(id, rec) => [(id, rec, false)]
          case Updated(id, rec) => [(id, rec, true)]
          case _ => [])
         + Writes(effects[1..])
  }

  /** The callbacks run locally, in order. */
  function Invocations(effects: seq<Effect>): (out: seq<Callback>)
    ensures |out| <= |effects|
  {
    if effects == [] then []
    else (if effects[0].Invoked? then [effects[0].callback] else []) + Invocations(effects[1..])
  }

  lemma {:induction false} OutboxAppend(a: seq<Effect>, b: seq<Effect>)
    ensures Outbox(a + b) == Outbox(a) + Outbox(b)
  {
    if a == [] {
      assert a + b == b;
    } else {
      var head := if a[0].Published? then [(a[0].topic, a[0].message)] else [];
      calc {
        Outbox(a + b);
        { assert (a + b)[0] == a[0]; }
        head + Outbox((a + b)[1..]);
        { assert (a + b)[1..] == a[1..] + b; }
        head + Outbox(a[1..] + b);
        { OutboxAppend(a[1..], b); }
        head + (Outbox(a[1..]) + Outbox(b));
      }
    }
  }

  lemma {:induction false} WritesAppend(a: seq<Effect>, b: seq<Effect>)
    ensures Writes(a + b) == Writes(a) + Writes(b)
  {
    if a == [] {
      assert a + b == b;
    } else {
      assert (a + b)[1..] == a[1..] + b;
      WritesAppend(a[1..], b);
    }
  }

  lemma {:induction false} InvocationsAppend(a: seq<Effect>, b: seq<Effect>)
    ensures Invocations(a + b) == Invocations(a) + Invocations(b)
  {
    if a == [] {
      assert a + b == b;
    } else {
      var head := if a[0].Invoked? then [a[0].callback] else [];
      calc {
        Invocations(a + b);
        { assert (a + b)[0] == a[0]; }
        head + Invocations((a + b)[1..]);
        { assert (a + b)[1..] == a[1..] + b; }
        head + Invocations(a[1..] + b);
        { InvocationsAppend(a[1..], b); }
        head + (Invocations(a[1..]) + Invocations(b));
      }
    }
  }

  /** The effects of one completed round: what its step did, then the save. */
  lemma RoundEffects(plan: seq<StepDef>, id: SagaId, data: Data, c: Config, produce: Producer, rec: Record)
    requires InBounds(plan, c.step)
    requires Round(plan, id, data, c, produce).Ok?
    ensures var e := Round(plan, id, data, c, produce).value.0 + [Saved(id, rec)];
      && Writes(e) == [(id, rec, false)]
      && (plan[c.step].LocalStepDef? ==>
            Outbox(e) == [] && Invocations(e) == [Chosen(plan[c.step], c.status).value])
      && (plan[c.step].ParticipantStepDef? ==>
            Invocations(e) == [] && |Outbox(e)| == 1 && Outbox(e)[0].0 == CommandTopic)
  {
    var step := Round(plan, id, data, c, produce).value.0;
    assert step == RunStep(plan, id, data, c, produce).value;
    var e := step + [Saved(id, rec)];
    assert e == [step[0], Saved(id, rec)];
    assert e[1..] == [Saved(id, rec)] && e[1..][1..] == [];
    if plan[c.step].ParticipantStepDef? {
      ParticipantStepPublishesItsCommand(plan, id, data, c, produce);
    }
  }

  /** The writes of a run are its saves, one per round, of `id` under `name` and `data`, the last one holding its final configuration. */
  predicate SavesOnce(r: Run, id: SagaId, name: string, data: Data) {
    && |Writes(r.effects)| == r.rounds
    && (forall w | w in Writes(r.effects) :: w.0 == id && !w.2 && w.1.name == name && w.1.data == data)
    && (r.rounds > 0 ==>
          Writes(r.effects)[r.rounds - 1] == (id, Record(name, data, r.final.step, r.final.status), false))
  }

  /** A round that saves `rec` once, put in front of a run that saves once per round, gives such a run. */
  lemma PrependSavingRound(e: seq<Effect>, rest: Run, id: SagaId, name: string, data: Data, rec: Record)
    requires Writes(e) == [(id, rec, false)] && rec.name == name && rec.data == data
    requires SavesOnce(rest, id, name, data)
    requires rest.rounds == 0 ==> rest.effects == [] && rest.final == Config(rec.currentStep, rec.status)
    ensures SavesOnce(Prepend(e, 1, rest), id, name, data)
  {
    WritesAppend(e, rest.effects);
    var ws := Writes(rest.effects);
    assert Writes(e + rest.effects) == [(id, rec, false)] + ws;
    if rest.rounds > 0 {
      assert ([(id, rec, false)] + ws)[rest.rounds] == ws[rest.rounds - 1];
    }
  }

  /**
   * Each round saves exactly once, every save is of the saga being run under its own name and
   * data, a run never updates, and the last save holds the configuration the run ended in.
   */
  lemma {:induction false} DriveWrites(t: SagaType, id: SagaId, data: Data, c: Config, produce: Producer)
    requires InBounds(t.plan, c.step)
    ensures var r := Drive(t, id, data, c, produce);
      && |Writes(r.effects)| == r.rounds
      && (forall w | w in Writes(r.effects) :: w.0 == id && !w.2 && w.1.name == t.name && w.1.data == data)
      && (r.rounds > 0 ==>
            Writes(r.effects)[r.rounds - 1] == (id, Record(t.name, data, r.final.step, r.final.status), false))
    decreases Rank(t.plan, c)
  {
    DriveSavesOnce(t, id, data, c, produce);
  }

  lemma {:induction false} DriveSavesOnce(t: SagaType, id: SagaId, data: Data, c: Config, produce: Producer)
    requires InBounds(t.plan, c.step)
    ensures SavesOnce(Drive(t, id, data, c, produce), id, t.name, data)
    decreases Rank(t.plan, c)
  {
    DriveUnfolds(t, id, data, c, produce);
    var round := Round(t.plan, id, data, c, produce);
    if round.Ok? {
      var next := round.value.1;
      var rec := Record(t.name, data, next.step, next.status);
      var e := round.value.0 + [Saved(id, rec)];
      RoundEffects(t.plan, id, data, c, produce, rec);
      if SelfDriving(next.status) {
        DriveSavesOnce(t, id, data, next, produce);
        PrependSavingRound(e, Drive(t, id, data, next, produce), id, t.name, data, rec);
      }
    }
  }

  /**
   * A run publishes at most one command, under the command topic, and only in its last round:
   * once a command is out the saga waits for its response or is done.
   */
  lemma {:induction false} DrivePublishesAtMostOnce(t: SagaType, id: SagaId, data: Data, c: Config, produce: Producer)
    requires InBounds(t.plan, c.step) && SelfDriving(c.status)
    ensures var r := Drive(t, id, data, c, produce);
      && |Outbox(r.effects)| <= 1
      && (forall m | m in Outbox(r.effects) :: m.0 == CommandTopic)
      && (|Outbox(r.effects)| == 1 ==>
            r.failure == None && r.final.status in {Processing, Compensating, Done})
    decreases Rank(t.plan, c)
  {
    DriveUnfolds(t, id, data, c, produce);
    var round := Round(t.plan, id, data, c, produce);
    if round.Ok? {
      var next := round.value.1;
      var rec := Record(t.name, data, next.step, next.status);
      var e := round.value.0 + [Saved(id, rec)];
      RoundEffects(t.plan, id, data, c, produce, rec);
      if SelfDriving(next.status) {
        // a participant step never leaves the saga self-driving, so this round published nothing
        assert t.plan[c.step].LocalStepDef?;
        var rest := Drive(t, id, data, next, produce);
        DrivePublishesAtMostOnce(t, id, data, next, produce);
        OutboxAppend(e, rest.effects);
      }
    }
  }

  /**
   * A run started forward never compensates and never moves back; a compensating run never
   * moves forward. On return the saga is waiting, done, or stopped by a failure where it was.
   */
  lemma {:induction false} DriveStaysInPhase(t: SagaType, id: SagaId, data: Data, c: Config, produce: Producer)
    requires InBounds(t.plan, c.step)
    ensures var r := Drive(t, id, data, c, produce);
      && (c.status == Pending ==> r.final.status in {Pending, Processing, Done} && r.final.step >= c.step)
      && (c.status == Compensation ==>
            r.final.status in {Compensation, Compensating, Done} && r.final.step <= c.step)
    decreases Rank(t.plan, c)
  {
    DriveUnfolds(t, id, data, c, produce);
    var round := Round(t.plan, id, data, c, produce);
    if round.Ok? && SelfDriving(round.value.1.status) {
      DriveStaysInPhase(t, id, data, round.value.1, produce);
    }
  }

  /**
   * The callbacks a run from `c` can reach are set: in compensation, the compensations from
   * `c.step` back to the first step; otherwise the actions from `c.step` to the end of the plan.
   */
  predicate ReachableCallbacksSet(plan: seq<StepDef>, c: Config) {
    if c.status == Compensation then forall j | 0 <= j <= c.step && j < |plan| :: plan[j].compensationCallback.Some?
    else forall j | c.step <= j < |plan| && 0 <= j :: plan[j].callback.Some?
  }

  /**
   * With every callback it can reach set, a run never raises. Ticking never fails a saga, so
   * a run that does not start failed ends waiting for a response or done.
   */
  lemma {:induction false} RunWithCallbacksSetNeverFails(t: SagaType, id: SagaId, data: Data, c: Config, produce: Producer)
    requires InBounds(t.plan, c.step) && ReachableCallbacksSet(t.plan, c)
    ensures var r := Drive(t, id, data, c, produce);
      && r.failure == None
      && (c.status != Failed ==> r.final.status in {Processing, Compensating, Done})
    decreases Rank(t.plan, c)
  {
    DriveUnfolds(t, id, data, c, produce);
    var round := Round(t.plan, id, data, c, produce);
    assert round.Ok?;
    if SelfDriving(round.value.1.status) {
      RunWithCallbacksSetNeverFails(t, id, data, round.value.1, produce);
    }
  }

  /** The actions of the steps from `k` to the end of the plan, in plan order. */
  function ActionsFrom(plan: seq<StepDef>, k: nat): (r: seq<Callback>)
    requires k <= |plan|
    requires forall j | k <= j < |plan| :: plan[j].callback.Some?
    ensures |r| == |plan| - k
    ensures forall j | 0 <= j < |r| :: r[j] == plan[k + j].callback.value
    decreases |plan| - k
  {
    if k == |plan| then [] else [plan[k].callback.value] + ActionsFrom(plan, k + 1)
  }

  /** The compensations of the first `n` steps, last step first. */
  function UndoOrder(plan: seq<StepDef>, n: nat): (r: seq<Callback>)
    requires n <= |plan|
    requires forall j | 0 <= j < n :: plan[j].compensationCallback.Some?
    ensures |r| == n
    ensures forall j | 0 <= j < n :: r[j] == plan[n - 1 - j].compensationCallback.value
  {
    if n == 0 then [] else [plan[n - 1].compensationCallback.value] + UndoOrder(plan, n - 1)
  }

  /**
   * From pending, a run over local steps with their actions set never fails, publishes
   * nothing, takes one round per remaining step and ends done at the last step.
   */
  lemma {:induction false} LocalForwardRun(t: SagaType, id: SagaId, data: Data, k: int, produce: Producer)
    requires InBounds(t.plan, k)
    requires forall j | k <= j < |t.plan| :: t.plan[j].LocalStepDef? && t.plan[j].callback.Some?
    ensures var r := Drive(t, id, data, Config(k, Pending), produce);
      && r.failure == None
      && r.final == Config(|t.plan| - 1, Done)
      && r.rounds == |t.plan| - k
      && Outbox(r.effects) == []
    decreases |t.plan| - k
  {
    var c := Config(k, Pending);
    DriveUnfolds(t, id, data, c, produce);
    var round := Round(t.plan, id, data, c, produce);
    var next := round.value.1;
    var rec := Record(t.name, data, next.step, next.status);
    var e := round.value.0 + [Saved(id, rec)];
    RoundEffects(t.plan, id, data, c, produce, rec);
    if k < |t.plan| - 1 {
      var rest := Drive(t, id, data, next, produce);
      LocalForwardRun(t, id, data, k + 1, produce);
      OutboxAppend(e, rest.effects);
    }
  }

  /** ... and the callbacks it runs are the actions of those steps, in plan order. */
  lemma {:induction false} LocalForwardActions(t: SagaType, id: SagaId, data: Data, k: int, produce: Producer)
    requires InBounds(t.plan, k)
    requires forall j | k <= j < |t.plan| :: t.plan[j].LocalStepDef? && t.plan[j].callback.Some?
    ensures Invocations(Drive(t, id, data, Config(k, Pending), produce).effects) == ActionsFrom(t.plan, k)
    decreases |t.plan| - k
  {
    var c := Config(k, Pending);
    DriveUnfolds(t, id, data, c, produce);
    var round := Round(t.plan, id, data, c, produce);
    var next := round.value.1;
    var rec := Record(t.name, data, next.step, next.status);
    var e := round.value.0 + [Saved(id, rec)];
    RoundEffects(t.plan, id, data, c, produce, rec);
    if k < |t.plan| - 1 {
      var rest := Drive(t, id, data, next, produce);
      LocalForwardActions(t, id, data, k + 1, produce);
      InvocationsAppend(e, rest.effects);
    } else {
      assert e == Drive(t, id, data, c, produce).effects;
    }
  }

  /**
   * In compensation, a run back over local steps with their compensations set never fails,
   * publishes nothing, takes one round per step to undo and ends done at step 0.
   */
  lemma {:induction false} LocalCompensationRun(t: SagaType, id: SagaId, data: Data, k: int, produce: Producer)
    requires InBounds(t.plan, k)
    requires forall j | 0 <= j <= k :: t.plan[j].LocalStepDef? && t.plan[j].compensationCallback.Some?
    ensures var r := Drive(t, id, data, Config(k, Compensation), produce);
      && r.failure == None
      && r.final == Config(0, Done)
      && r.rounds == k + 1
      && Outbox(r.effects) == []
    decreases k
  {
    var c := Config(k, Compensation);
    DriveUnfolds(t, id, data, c, produce);
    var round := Round(t.plan, id, data, c, produce);
    var next := round.value.1;
    var rec := Record(t.name, data, next.step, next.status);
    var e := round.value.0 + [Saved(id, rec)];
    RoundEffects(t.plan, id, data, c, produce, rec);
    if k > 0 {
      var rest := Drive(t, id, data, next, produce);
      LocalCompensationRun(t, id, data, k - 1, produce);
      OutboxAppend(e, rest.effects);
    }
  }

  /** ... and the callbacks it runs are the compensations of those steps, last step first. */
  lemma {:induction false} LocalCompensations(t: SagaType, id: SagaId, data: Data, k: int, produce: Producer)
    requires InBounds(t.plan, k)
    requires forall j | 0 <= j <= k :: t.plan[j].LocalStepDef? && t.plan[j].compensationCallback.Some?
    ensures Invocations(Drive(t, id, data, Config(k, Compensation), produce).effects) == UndoOrder(t.plan, k + 1)
    decreases k
  {
    var c := Config(k, Compensation);
    DriveUnfolds(t, id, data, c, produce);
    var round := Round(t.plan, id, data, c, produce);
    var next := round.value.1;
    var rec := Record(t.name, data, next.step, next.status);
    var e := round.value.0 + [Saved(id, rec)];
    RoundEffects(t.plan, id, data, c, produce, rec);
    if k > 0 {
      var rest := Drive(t, id, data, next, produce);
      LocalCompensations(t, id, data, k - 1, produce);
      InvocationsAppend(e, rest.effects);
    } else {
      assert e == Drive(t, id, data, c, produce).effects;
    }
  }

  /**
   * A response to a saga that is failed or done changes neither its step nor its status: the
   * only effect is one update writing the row back, and nothing is published.
   */
  lemma ResponseToFinishedSaga(classes: map<string, SagaType>, table: Table, response: CommandResponse,
                               produce: Producer)
    requires TargetInBounds(classes, table, response.sagaId)
    requires response.sagaId in table && table[response.sagaId].name in classes
    requires IsTerminal(table[response.sagaId].status)
    ensures var rec := table[response.sagaId];
      var r := Respond(classes, table, response, produce);
      && r.Ok?
      && r.value.effects == [Updated(response.sagaId, rec.(name := classes[rec.name].name))]
      && r.value.final == Config(rec.currentStep, rec.status)
      && r.value.failure == None
      && Outbox(r.value.effects) == []
  {
    var rec := table[response.sagaId];
    var r := Respond(classes, table, response, produce);
    assert r.value.effects == [Updated(response.sagaId, rec.(name := classes[rec.name].name))];
  }

  /**
   * A response is written by exactly one update, which comes first and holds the configuration
   * the response leads to; every later write is a save of the same saga, one per round. The
   * saga is driven on only when the response leaves it pending or in compensation; otherwise
   * the update is the only effect.
   */
  lemma ResponseWritesOnce(classes: map<string, SagaType>, table: Table, response: CommandResponse,
                           produce: Producer)
    requires TargetInBounds(classes, table, response.sagaId)
    requires response.sagaId in table && table[response.sagaId].name in classes
    ensures var rec := table[response.sagaId];
      var t := classes[rec.name];
      var next := NextOnResponse(t.plan, Config(rec.currentStep, rec.status), response.ok);
      var r := Respond(classes, table, response, produce);
      && r.Ok?
      && |Writes(r.value.effects)| == r.value.rounds + 1
      && Writes(r.value.effects)[0] == (response.sagaId, Record(t.name, rec.data, next.step, next.status), true)
      && (forall j | 1 <= j < |Writes(r.value.effects)| ::
            Writes(r.value.effects)[j].0 == response.sagaId && !Writes(r.value.effects)[j].2)
      && (r.value.rounds > 0 ==> SelfDriving(next.status))
      && (!SelfDriving(next.status) ==>
            r.value.effects == [Updated(response.sagaId, Record(t.name, rec.data, next.step, next.status))]
            && r.value.final == next && r.value.failure == None)
  {
    var rec := table[response.sagaId];
    var t := classes[rec.name];
    var next := NextOnResponse(t.plan, Config(rec.currentStep, rec.status), response.ok);
    var update := Updated(response.sagaId, Record(t.name, rec.data, next.step, next.status));
    if SelfDriving(next.status) {
      var rest := Drive(t, response.sagaId, rec.data, next, produce);
      DriveWrites(t, response.sagaId, rec.data, next, produce);
      WritesAppend([update], rest.effects);
      assert Writes([update]) == [(response.sagaId, Record(t.name, rec.data, next.step, next.status), true)];
      forall j | 1 <= j < |Writes([update] + rest.effects)|
        ensures Writes([update] + rest.effects)[j].0 == response.sagaId && !Writes([update] + rest.effects)[j].2
      {
        assert Writes([update] + rest.effects)[j] == Writes(rest.effects)[j - 1];
        assert Writes(rest.effects)[j - 1] in Writes(rest.effects);
      }
    }
  }
}
