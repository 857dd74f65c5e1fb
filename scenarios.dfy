/**
 * Concrete sagas run through the model: the CreateOrderSaga plan of the orders service, built
 * with the step builder, and the two-step MockedSaga of
 * orchestrated_saga/tests/test_saga_manager.py, whose expectations are checked against both
 * managers.
 */
module Scenarios {
  import opened Wrappers
  import opened Commands
  import opened Steps
  import opened StepBuilding
  import opened SagaMachine
  import opened SagaStore
  import opened Orchestration
  import opened OrchestrationProperties
  import opened LegacyOrchestration

  const CreateOrder := Callback("create_order")
  const CancelOrder := Callback("cancel_order")
  const CreatePayment := Callback("create_payment")
  const CancelPayment := Callback("cancel_payment")
  const CreateBooking := Callback("create_booking")
  const CompleteOrder := Callback("complete_order")

  /** The step definitions of CreateOrderSaga: local, participant, participant, local. */
  function CreateOrderPlan(): seq<StepDef> {
    [ LocalStepDef(Some(CreateOrder), Some(CancelOrder)),
      ParticipantStepDef(Some(CreatePayment), Some(CancelPayment)),
      ParticipantStepDef(Some(CreateBooking), None),
      LocalStepDef(Some(CompleteOrder), None) ]
  }

  function CreateOrderSaga(): SagaType {
    SagaType("CreateOrderSaga", CreateOrderPlan())
  }

  /** Building the four steps as the orders service does yields CreateOrderPlan. */
  method BuildCreateOrderPlan() returns (plan: seq<StepDef>)
    ensures plan == CreateOrderPlan()
    ensures plan[0].LocalStepDef? && plan[1].ParticipantStepDef? && plan[2].ParticipantStepDef? && plan[3].LocalStepDef?
  {
    var b := new StepBuilder();
    b := b.WithAction(Some(CreateOrder));
    b := b.WithCompensation(Some(CancelOrder));
    var first := b.Build();
    b := new StepBuilder();
    b := b.WithCommand(Some(CreatePayment));
    b := b.WithCompensation(Some(CancelPayment));
    var second := b.Build();
    b := new StepBuilder();
    b := b.WithCommand(Some(CreateBooking));
    var third := b.Build();
    b := new StepBuilder();
    b := b.WithAction(Some(CompleteOrder));
    var fourth := b.Build();
    plan := [first, second, third, fourth];
  }

  /** Setting the action twice keeps the second; an action beats a command set before it. */
  method BuilderLastCallWins() returns (step: StepDef)
    ensures step == LocalStepDef(Some(CompleteOrder), None)
  {
    var b := new StepBuilder();
    b := b.WithCommand(Some(CreatePayment));
    b := b.WithAction(Some(CreateOrder));
    b := b.WithAction(Some(CompleteOrder));
    step := b.Build();
  }

  /** A builder given only a compensation builds a participant step with no command. */
  method BuilderWithoutCommand() returns (step: StepDef)
    ensures step == ParticipantStepDef(None, Some(CancelPayment))
  {
    var b := new StepBuilder();
    b := b.WithCompensation(Some(CancelPayment));
    step := b.Build();
  }

  function Message(produce: Producer, callback: Callback, id: SagaId, data: Data): CommandMessage {
    var command := produce(callback, id, data);
    CommandMessage(command.sagaId, command.name, command.payload)
  }

  /** Starting CreateOrderSaga creates the order, asks for the payment and waits at step 1. */
  lemma CreateOrderStartWaitsForPayment(id: SagaId, data: Data, produce: Producer)
    ensures var name := CreateOrderSaga().name;
      Drive(CreateOrderSaga(), id, data, Config(0, Pending), produce)
      == Run([ Invoked(CreateOrder, id), Saved(id, Record(name, data, 1, Pending)),
               Published(CommandTopic, Message(produce, CreatePayment, id, data)),
               Saved(id, Record(name, data, 1, Processing)) ],
             Config(1, Processing), 2, None)
  {
    var t := CreateOrderSaga();
    DriveUnfolds(t, id, data, Config(0, Pending), produce);
    DriveUnfolds(t, id, data, Config(1, Pending), produce);
  }

  /** A paid order asks for the booking and waits at step 2. */
  lemma CreateOrderPaidWaitsForBooking(id: SagaId, data: Data, produce: Producer)
    ensures NextOnResponse(CreateOrderPlan(), Config(1, Processing), true) == Config(2, Pending)
    ensures var r := Drive(CreateOrderSaga(), id, data, Config(2, Pending), produce);
      r.final == Config(2, Processing) && r.effects[0] == Published(CommandTopic, Message(produce, CreateBooking, id, data))
  {
    DriveUnfolds(CreateOrderSaga(), id, data, Config(2, Pending), produce);
  }

  /** A booked order runs complete_order and is done. */
  lemma CreateOrderBookedIsDone(id: SagaId, data: Data, produce: Producer)
    ensures NextOnResponse(CreateOrderPlan(), Config(2, Processing), true) == Config(3, Pending)
    ensures var r := Drive(CreateOrderSaga(), id, data, Config(3, Pending), produce);
      r.final == Config(3, Done) && r.effects[0] == Invoked(CompleteOrder, id)
  {
    DriveUnfolds(CreateOrderSaga(), id, data, Config(3, Pending), produce);
  }

  /**
   * A refused booking sends the saga back to step 1, which asks for the payment to be
   * cancelled; once it is, the order is cancelled locally and the saga ends done, not failed.
   */
  lemma CreateOrderBookingRefusedIsCompensated(id: SagaId, data: Data, produce: Producer)
    ensures NextOnResponse(CreateOrderPlan(), Config(2, Processing), false) == Config(1, Compensation)
    ensures var r := Drive(CreateOrderSaga(), id, data, Config(1, Compensation), produce);
      r.final == Config(1, Compensating) && r.effects[0] == Published(CommandTopic, Message(produce, CancelPayment, id, data))
    ensures NextOnResponse(CreateOrderPlan(), Config(1, Compensating), true) == Config(0, Compensation)
    ensures var r := Drive(CreateOrderSaga(), id, data, Config(0, Compensation), produce);
      r.final == Config(0, Done) && r.effects[0] == Invoked(CancelOrder, id)
  {
    DriveUnfolds(CreateOrderSaga(), id, data, Config(1, Compensation), produce);
    DriveUnfolds(CreateOrderSaga(), id, data, Config(0, Compensation), produce);
  }

  /**
   * CreateOrderSaga never raises on a run it can reach: forward from any step, and in
   * compensation from steps 0 and 1, the only steps a failed response from its participant
   * steps 1 and 2 sends it back to. Steps 2 and 3 have no compensation, and none is needed.
   */
  lemma CreateOrderRunsNeverFail(id: SagaId, data: Data, k: int, produce: Producer)
    requires 0 <= k < 4
    ensures Drive(CreateOrderSaga(), id, data, Config(k, Pending), produce).failure == None
    ensures k <= 1 ==> Drive(CreateOrderSaga(), id, data, Config(k, Compensation), produce).failure == None
  {
    RunWithCallbacksSetNeverFails(CreateOrderSaga(), id, data, Config(k, Pending), produce);
    if k <= 1 {
      RunWithCallbacksSetNeverFails(CreateOrderSaga(), id, data, Config(k, Compensation), produce);
    }
  }

  /** The saga of orchestrated_saga/tests/test_saga_manager.py: one local step, one participant step. */
  function MockedSaga(): SagaType {
    SagaType("MockedSaga",
      [ LocalStepDef(Some(Callback("step_one_action")), Some(Callback("step_one_compensation"))),
        ParticipantStepDef(Some(Callback("step_two_command")), Some(Callback("step_two_compensation"))) ])
  }

  /**
   * The test expects the started saga to wait at step 1 in processing. Under saga.py the
   * pending tick at the last step ends it done instead, after publishing the command.
   */
  lemma MockedSagaStartDoesNotWait(id: SagaId, produce: Producer)
    ensures var r := Drive(MockedSaga(), id, map[], Config(0, Pending), produce);
      r.final == Config(1, Done) && r.failure == None && r.rounds == 2
  {
    DriveUnfolds(MockedSaga(), id, map[], Config(0, Pending), produce);
    DriveUnfolds(MockedSaga(), id, map[], Config(1, Pending), produce);
  }

  /**
   * Either response then leaves the saga done at step 1: the success flow ends where the test
   * expects, the failure flow does not reach the expected failed at step 0.
   */
  lemma MockedSagaResponsesAfterDone(ok: bool)
    ensures NextOnResponse(MockedSaga().plan, Config(1, Done), ok) == Config(1, Done)
  {
  }

  /** Under the legacy manager the started saga does wait at step 1 in processing, as the test expects. */
  lemma LegacyMockedSagaWaits(id: SagaId, produce: Producer)
    ensures LegacyDrive(MockedSaga(), id, map[], Config(0, Pending), produce).final == Config(1, Processing)
  {
    LegacyDriveUnfolds(MockedSaga(), id, map[], Config(0, Pending), produce);
    LegacyDriveUnfolds(MockedSaga(), id, map[], Config(1, Pending), produce);
  }

  /**
   * There a success ends it done at step 1, as expected; a failure steps back into
   * compensation, undoes step 0 locally and ends done at step 0, not failed.
   */
  lemma LegacyMockedSagaResponses(id: SagaId, produce: Producer)
    ensures LegacyNextOnResponse(MockedSaga().plan, Config(1, Processing), true) == Config(1, Done)
    ensures LegacyNextOnResponse(MockedSaga().plan, Config(1, Processing), false) == Config(0, Compensation)
    ensures LegacyDrive(MockedSaga(), id, map[], Config(0, Compensation), produce).final == Config(0, Done)
  {
    LegacyDriveUnfolds(MockedSaga(), id, map[], Config(0, Compensation), produce);
  }

  /**
   * The test's success flow through the manager objects: the saga is started, saved, and a
   * successful response finds it already done at step 1.
   */
  method MockedSagaSuccessFlow(produce: Producer) returns (final: Config, failure: Option<Failure>)
    ensures final == Config(1, Done) && failure == None
  {
    var dao := new SagaDao(map["MockedSaga" := MockedSaga()], map[]);
    var manager := new SagaManager(dao, produce);
    MockedSagaStartDoesNotWait("saga-1", produce);
    var saga, started := manager.StartSaga(MockedSaga(), "saga-1", map[]);
    assert dao.table == map["saga-1" := Record("MockedSaga", map[], 1, Done)];
    failure := manager.HandleSagaCommandResponse(CommandResponse("MockedSaga", "saga-1", true));
    final := Config(dao.table["saga-1"].currentStep, dao.table["saga-1"].status);
  }
}
