/**
 * The saga record and its six-state machine. The pure functions NextOnTick and
 * NextOnResponse give the transition table; the class Saga performs the same transitions in
 * place, through its step counter and `set_status`, and is proved to agree with them.
 */
module SagaMachine {
  import opened Commands
  import opened Steps

  datatype Status = Pending | Processing | Compensation | Compensating | Failed | Done

  /** The handler object bound to a saga, one per status. */
  datatype Handler =
    | PendingState | ProcessingState | CompensationState | CompensatingState | FailedState | DoneState

  /** The `states` table: the handler class that serves each status. */
  function HandlerFor(status: Status): (h: Handler)
    ensures StatusOf(h) == status
  {
    match status
    case Pending => PendingState
    case Processing => ProcessingState
    case Compensation => CompensationState
    case Compensating => CompensatingState
    case Failed => FailedState
    case Done => DoneState
  }

  /** The status a handler serves. */
  function StatusOf(h: Handler): Status {
    match h
    case PendingState => Pending
    case ProcessingState => Processing
    case CompensationState => Compensation
    case CompensatingState => Compensating
    case FailedState => Failed
    case DoneState => Done
  }

  /** The part of a saga the state machine moves: its step index and its status. */
  datatype Config = Config(step: int, status: Status)

  /** A saga type: the class attributes `name` and `step_defs` of a Saga subclass. */
  datatype SagaType = SagaType(name: string, plan: seq<StepDef>)

  predicate InBounds(plan: seq<StepDef>, step: int) {
    0 <= step < |plan|
  }

  predicate IsTerminal(status: Status) {
    status == Failed || status == Done
  }

  /** The statuses after which the manager keeps driving the saga without waiting. */
  predicate SelfDriving(status: Status) {
    status == Pending || status == Compensation
  }

  predicate AtLastStep(plan: seq<StepDef>, c: Config) {
    c.step == |plan| - 1
  }

  /**
   * The termination measure of the self-driving loop: forward phases count the steps still
   * ahead, the compensation phase counts the steps still to undo.
   */
  function Rank(plan: seq<StepDef>, c: Config): nat {
    if !InBounds(plan, c.step) then 0
    else match c.status
      case Pending => |plan| - c.step
      case Processing => |plan| - c.step
      case Compensation => c.step + 1
      case _ => 0
  }

  /**
   * The `tick` event. Pending and Compensation look at the current step definition, so they
   * need an index inside the plan; the other handlers only compare the index.
   */
  function NextOnTick(plan: seq<StepDef>, c: Config): (r: Config)
    requires SelfDriving(c.status) ==> InBounds(plan, c.step)
    ensures InBounds(plan, c.step) ==> InBounds(plan, r.step)
    ensures c.status == Pending ==> r.status in {Pending, Processing, Done}
    ensures c.status == Processing ==> r.status in {Pending, Done}
    ensures c.status == Compensation ==> r.status in {Compensation, Compensating, Done}
    ensures c.status in {Compensating, Failed, Done} ==> r == c
    ensures r.step > c.step ==> r.step == c.step + 1 && r.status == Pending
    ensures r.step < c.step ==> r.step == c.step - 1 && r.status == Compensation
    ensures InBounds(plan, c.step) && SelfDriving(r.status) ==> Rank(plan, r) < Rank(plan, c)
  {
    match c.status
    case Pending =>
      if AtLastStep(plan, c) then c.(status := Done)
      else if plan[c.step].ParticipantStepDef? then c.(status := Processing)
      else Config(c.step + 1, Pending)
    case Processing =>
      if AtLastStep(plan, c) then c.(status := Done)
      else Config(c.step + 1, Pending)
    case Compensation =>
      if plan[c.step].LocalStepDef? then
        if c.step == 0 then c.(status := Done)
        else Config(c.step - 1, Compensation)
      else if AtLastStep(plan, c) then c.(status := Done)
      else c.(status := Compensating)
    case Compensating => c
    case Failed => c
    case Done => c
  }

  /** The `tick_command_response(ok)` event. No handler looks at a step definition. */
  function NextOnResponse(plan: seq<StepDef>, c: Config, ok: bool): (r: Config)
    ensures InBounds(plan, c.step) ==> InBounds(plan, r.step)
    ensures c.status in {Pending, Compensation, Failed, Done} ==> r == c
    ensures c.status == Processing && ok ==> r.status in {Pending, Done}
    ensures c.status == Compensating && ok ==> r.status in {Compensation, Done}
    ensures c.status in {Processing, Compensating} && !ok ==> r.status in {Compensation, Failed}
    ensures r.step > c.step ==> r.step == c.step + 1 && r.status == Pending
    ensures r.step < c.step ==> r.step == c.step - 1 && r.status == Compensation
  {
    match c.status
    case Processing =>
      if ok then
        if AtLastStep(plan, c) then c.(status := Done)
        else Config(c.step + 1, Pending)
      else if c.step == 0 then c.(status := Failed)
      else Config(c.step - 1, Compensation)
    case Compensating =>
      if ok then
        if c.step == 0 then c.(status := Done)
        else Config(c.step - 1, Compensation)
      else if c.step == 0 then c.(status := Failed)
      else Config(c.step - 1, Compensation)
    case _ => c
  }

  /** One saga instance. `state` is the handler object the events are dispatched to. */
  class Saga {
    const id: SagaId
    const name: string
    const plan: seq<StepDef>
    var data: Data
    var currentStep: int
    var status: Status
    var state: Handler

    /** The handler always serves the current status. */
    ghost predicate Valid()
      reads this
    {
      state == HandlerFor(status)
    }

    function Snapshot(): Config
      reads this
    {
      Config(currentStep, status)
    }

    constructor (t: SagaType, id: SagaId, data: Data, currentStep: int, status: Status)
      ensures Valid()
      ensures this.id == id && name == t.name && plan == t.plan && this.data == data
      ensures this.currentStep == currentStep && this.status == status
    {
      this.id := id;
      name := t.name;
      plan := t.plan;
      this.data := data;
      this.currentStep := currentStep;
      this.status := status;
      state := HandlerFor(status);
    }

    /** The definition of the step the saga is at. */
    function CurrentStepDef(): (s: StepDef)
      reads this
      requires InBounds(plan, currentStep)
      ensures s in plan && s == plan[currentStep]
    {
      plan[currentStep]
    }

    /** Exactly one of the two step kinds holds for the current step. */
    predicate IsLocalStep()
      reads this
      requires InBounds(plan, currentStep)
      ensures IsLocalStep() <==> !IsParticipantStep()
    {
      CurrentStepDef().LocalStepDef?
    }

    predicate IsParticipantStep()
      reads this
      requires InBounds(plan, currentStep)
      ensures IsParticipantStep() <==> !plan[currentStep].LocalStepDef?
    {
      CurrentStepDef().ParticipantStepDef?
    }

    /** At the first step, the saga is also at its last exactly when the plan has one step. */
    predicate IsFirstStep()
      reads this
      ensures IsFirstStep() ==> (IsLastStep() <==> |plan| == 1)
    {
      currentStep == 0
    }

    /** The query the transition rules use, asked of the saga's own configuration. */
    predicate IsLastStep()
      reads this
      ensures IsLastStep() <==> AtLastStep(plan, Snapshot())
    {
      currentStep == |plan| - 1
    }

    method IncrementStep()
      modifies this`currentStep
      ensures currentStep == old(currentStep) + 1
    {
      currentStep := currentStep + 1;
    }

    method DecrementStep()
      modifies this`currentStep
      ensures currentStep == old(currentStep) - 1
    {
      currentStep := currentStep - 1;
    }

    /** Rebinds the handler only when the status actually changes. */
    method SetStatus(s: Status)
      modifies this`status, this`state
      ensures status == s
      ensures state == if old(status) != s then HandlerFor(s) else old(state)
      ensures old(Valid()) ==> Valid()
    {
      if status != s {
        status := s;
        state := HandlerFor(s);
      }
    }

    method Tick()
      requires Valid()
      requires SelfDriving(status) ==> InBounds(plan, currentStep)
      modifies this`currentStep, this`status, this`state
      ensures Valid()
      ensures Snapshot() == NextOnTick(plan, old(Snapshot()))
    {
      match state
      case PendingState =>
        if IsLastStep() {
          SetStatus(Done);
        } else if IsParticipantStep() {
          SetStatus(Processing);
        } else if IsLocalStep() {
          IncrementStep();
        }
      case ProcessingState =>
        if IsLastStep() {
          SetStatus(Done);
        } else {
          IncrementStep();
          SetStatus(Pending);
        }
      case CompensationState =>
        if IsLocalStep() {
          if IsFirstStep() {
            SetStatus(Done);
          } else {
            DecrementStep();
          }
        } else if IsLastStep() {
          SetStatus(Done);
        } else {
          SetStatus(Compensating);
        }
      case CompensatingState =>
      case FailedState =>
      case DoneState =>
    }

    method TickCommandResponse(ok: bool)
      requires Valid()
      modifies this`currentStep, this`status, this`state
      ensures Valid()
      ensures Snapshot() == NextOnResponse(plan, old(Snapshot()), ok)
    {
      match state
      case ProcessingState =>
        if ok {
          if IsLastStep() {
            SetStatus(Done);
          } else {
            IncrementStep();
            SetStatus(Pending);
          }
        } else {
          if IsFirstStep() {
            SetStatus(Failed);
          } else {
            DecrementStep();
            SetStatus(Compensation);
          }
        }
      case CompensatingState =>
        if ok {
          if IsFirstStep() {
            SetStatus(Done);
          } else {
            DecrementStep();
            SetStatus(Compensation);
          }
        } else if IsFirstStep() {
          SetStatus(Failed);
        } else {
          DecrementStep();
          SetStatus(Compensation);
        }
      case PendingState =>
      case CompensationState =>
      case FailedState =>
      case DoneState =>
    }
  }
}
