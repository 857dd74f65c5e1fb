# Orchestrated saga engine, in Dafny

This project models the orchestrated-saga engine of `orchestrated_saga/` and proves properties of the model.

A **saga** is a plan of steps. Each step is either:
- a *local* step, whose callback runs in the orchestrating service; or
- a *participant* step, whose callback produces a command that is published to another service.

Every step may have a compensation. A saga record holds:
- an `id` and its `data`;
- an index `current_step` into the plan;
- one of six statuses: pending, processing, compensation, compensating, failed, done.

**The state machine** (`saga.py`) moves the step and the status on two events.
- `tick` happens after the manager runs the current step.
- `tick_command_response(ok)` happens when a participant answers.

Each status has a handler object. `set_status` rebinds that handler, but only when the status actually changes.

**The saga manager** (`saga_manager.py`) runs a saga in rounds. A round:
1. runs the current step: calls a local callback, or publishes one command to `create_order_saga.command`;
2. ticks;
3. saves the saga.

It repeats while the status is pending or compensation. When a response arrives, the manager loads the saga, applies the response once, updates the row once, and drives the saga again if it is pending or in compensation.

**The store** (`saga_dao.py`) is a table keyed by saga id:
- `create` is an upsert;
- `update` only rewrites an existing row;
- `get_one_by_id` binds a row to the saga class registered under its name.

**The builder** (`step_builder.py`) assembles step definitions.

**The older manager** (`saga_manager.backup.py`) does the same work without ticking. It assigns `status` and `current_step` itself.

## Files

| file | module | content |
|---|---|---|
| `wrappers.dfy` | `Wrappers` | `Option` and `Result` |
| `commands.dfy` | `Commands` | saga ids, data, `Command`, `CommandResponse` |
| `step.dfy` | `Steps` | `StepDef`, local or participant; `Callback` |
| `step_builder.dfy` | `StepBuilding` | class `StepBuilder` |
| `saga.dfy` | `SagaMachine` | statuses, handlers, `NextOnTick` and `NextOnResponse`, and class `Saga`, whose `Tick` and `TickCommandResponse` are proved to perform them in place |
| `saga_rules.dfy` | `SagaRules` | the transition rules handler by handler, and each unit test of `orchestrated_saga/tests/test_saga.py` |
| `saga_dao.dfy` | `SagaStore` | the table as a map, and class `SagaDao` |
| `saga_manager.dfy` | `Orchestration` | see below |
| `saga_manager_properties.dfy` | `OrchestrationProperties` | what a run and a response promise |
| `saga_manager_backup.dfy` | `LegacyOrchestration` | the older manager and where it agrees with the current one |
| `scenarios.dfy` | `Scenarios` | the `CreateOrderSaga` plan, and the manager test of `orchestrated_saga/tests/test_saga_manager.py` |

The `Orchestration` module holds three things:
- the effect trace (`Invoked`, `Published`, `Saved`, `Updated`);
- `Drive` and `Respond`, the specification of one run and of one response;
- class `SagaManager`, whose `while` loop is proved to produce exactly that trace and store.

Where the code and its tests disagree, the model follows the code. Each disagreeing expectation is a lemma that proves what the code yields instead. For `tests/test_saga.py` the lemma is named `...DoesNotHold`. For the manager test the lemmas are `MockedSagaStartDoesNotWait` and `MockedSagaResponsesAfterDone`:

| test | the test expects | the code yields | why |
|---|---|---|---|
| `test_pending_to_processing` | processing | done | `Pending.tick` checks `is_last_step` before the step kind |
| the first `test_compensation_to_failed` | failed | done | `Compensation.tick` reaches done at a local first step. This test is shadowed by a second one with the same name |
| the second `test_compensation_to_failed` | failed | done | a participant last step in compensation ends done |
| `test_compensation_to_compensating` | compensating | done | same participant-last-step rule |
| manager test, start | waits at step 1 in processing | done at step 1 | the pending tick at the last step ends it done. With a store that returns the saga it writes, the older manager does wait, as the test expects |
| manager test, failure flow (`tests/test_saga_manager.py:72-73`) | failed at step 0 | done at step 1 | the saga is already done when the response arrives, and done ignores responses. Under the older manager, with a store that returns the saga it writes, it ends done at step 0 |

Other places where the model follows the code:
- **Compensation reaching step 0 through `tick`** ends *done*, not *failed*.
- **`update` of an absent id** changes nothing and raises nothing.

The current manager relies on names that `saga.py` and `saga_dao.py` do not define; see the first line of "## Left out".

## Model

| member | source | states |
|---|---|---|
| SagaMachine.HandlerFor | orchestrated_saga/saga.py:103-110 | the `states` table gives each status a handler, and `StatusOf` recovers the status from it |
| SagaRules.HandlerIdentifiesStatus | orchestrated_saga/saga.py:103-110 | two statuses share a handler only if they are equal, so the handler is a function of the status |
| SagaMachine.NextOnTick | orchestrated_saga/saga.py:17-100 | `tick` keeps the step in bounds. From pending the status stays in {pending, processing, done}; from processing in {pending, done}; from compensation in {compensation, compensating, done}. Compensating, failed and done are unchanged. The step only moves forward by one into pending, or back by one into compensation. A self-driving result lowers `Rank` |
| SagaMachine.NextOnResponse | orchestrated_saga/saga.py:26-100 | `tick_command_response` keeps the step in bounds and leaves pending, compensation, failed and done unchanged. From processing, ok gives pending or done. From compensating, ok gives compensation or done. Not ok gives compensation or failed. Step moves are as for `tick` |
| SagaMachine.Saga.constructor | orchestrated_saga/saga.py:117-122 | a new saga holds the given fields, and its handler serves its status |
| SagaMachine.Saga.CurrentStepDef | orchestrated_saga/saga.py:124-125 | the definition of the step the saga is at, taken from its own plan |
| SagaMachine.Saga.IsLocalStep | orchestrated_saga/saga.py:127-128 | the current step is local exactly when it is not a participant step |
| SagaMachine.Saga.IsParticipantStep | orchestrated_saga/saga.py:130-131 | the current step is a participant step exactly when it is not local |
| SagaMachine.Saga.IsFirstStep | orchestrated_saga/saga.py:142-143 | at the first step, the saga is also at its last exactly when the plan has one step |
| SagaMachine.Saga.IsLastStep | orchestrated_saga/saga.py:139-140 | agrees with `AtLastStep`, the test the transition functions apply to the saga's configuration |
| SagaMachine.Saga.IncrementStep | orchestrated_saga/saga.py:133-134 | the step goes up by one |
| SagaMachine.Saga.DecrementStep | orchestrated_saga/saga.py:136-137 | the step goes down by one |
| SagaMachine.Saga.SetStatus | orchestrated_saga/saga.py:11-14 | sets the status, and rebinds the handler only when the status changes. The handler keeps serving the status |
| SagaMachine.Saga.Tick | orchestrated_saga/saga.py:145-146 | dispatching on the bound handler moves the saga exactly as `NextOnTick` says, and keeps the handler in step with the status |
| SagaMachine.Saga.TickCommandResponse | orchestrated_saga/saga.py:148-149 | the same for `NextOnResponse` |
| SagaRules.PendingTickRule | orchestrated_saga/saga.py:17-24 | pending: last step → done; otherwise participant → processing at the same step; otherwise local → next step, still pending |
| SagaRules.ProcessingRule | orchestrated_saga/saga.py:30-50 | processing: `tick` and a successful response both give done at the last step, else the next step pending. A failed response gives failed at step 0, else the previous step in compensation |
| SagaRules.CompensationTickRule | orchestrated_saga/saga.py:53-63 | compensation: local at step 0 → done; local elsewhere → previous step; participant at the last step → done; other participant → compensating |
| SagaRules.CompensatingRule | orchestrated_saga/saga.py:69-84 | compensating ignores `tick`. A response at step 0 gives done if ok, failed if not; elsewhere it gives the previous step in compensation, whatever `ok` is |
| SagaRules.TerminalIsAbsorbing | orchestrated_saga/saga.py:87-100 | failed and done absorb both events |
| SagaRules.SelfDrivingIgnoresResponses | orchestrated_saga/saga.py:26-66 | pending and compensation ignore responses |
| SagaRules.TestPendingToProcessingDoesNotHold | orchestrated_saga/tests/test_saga.py:27-30 | a lone participant step ticks from pending to done, not processing |
| SagaRules.TestPendingToDone | orchestrated_saga/tests/test_saga.py:32-35 | a lone local step ticks from pending to done |
| SagaRules.TestPendingNextStep | orchestrated_saga/tests/test_saga.py:37-41 | a local first step of two ticks to step 1 |
| SagaRules.TestProcessingToPending | orchestrated_saga/tests/test_saga.py:43-50 | processing at step 0 of two ticks to step 1, pending |
| SagaRules.TestProcessingToDone | orchestrated_saga/tests/test_saga.py:52-58 | processing at the last step ticks to done |
| SagaRules.TestProcessingToPendingOnCommandResponse | orchestrated_saga/tests/test_saga.py:60-67 | a successful response at step 0 of two gives step 1, pending |
| SagaRules.TestProcessingToDoneOnCommandResponse | orchestrated_saga/tests/test_saga.py:69-75 | a successful response at the last step gives done |
| SagaRules.TestProcessingToFailedOnCommandResponse | orchestrated_saga/tests/test_saga.py:77-83 | a failed response at step 0 gives failed, even with an empty plan |
| SagaRules.TestProcessingToCompensationOnCommandResponse | orchestrated_saga/tests/test_saga.py:85-91 | a failed response at step 1 gives step 0, compensation |
| SagaRules.TestCompensationToFailedLocalDoesNotHold | orchestrated_saga/tests/test_saga.py:93-99 | a lone local step ticks from compensation to done, not failed |
| SagaRules.TestCompensationToDecrementStep | orchestrated_saga/tests/test_saga.py:101-107 | compensation at a local step 1 ticks to step 0 |
| SagaRules.TestCompensationToFailedParticipantDoesNotHold | orchestrated_saga/tests/test_saga.py:109-115 | a lone participant step ticks from compensation to done, not failed |
| SagaRules.TestCompensationToCompensatingDoesNotHold | orchestrated_saga/tests/test_saga.py:117-123 | a participant last step ticks from compensation to done, not compensating |
| SagaRules.TestCompensatingToDoneOnCommandResponse | orchestrated_saga/tests/test_saga.py:125-131 | a successful response while compensating at step 0 gives done |
| SagaRules.TestCompensatingToCompensationOnCommandResponse | orchestrated_saga/tests/test_saga.py:133-140 | a successful response while compensating at step 1 gives step 0, compensation |
| SagaRules.TestCompensatingToFailedOnFailedCommandResponse | orchestrated_saga/tests/test_saga.py:142-148 | a failed response while compensating at step 0 gives failed |
| SagaRules.TestCompensatingToCompensationOnFailedCommandResponse | orchestrated_saga/tests/test_saga.py:150-157 | a failed response while compensating at step 1 gives step 0, compensation |
| SagaStore.GetSagaClass | orchestrated_saga/saga_dao.py:15-18 | a registered name gives its class. Any other name gives the base class |
| SagaStore.Upsert | orchestrated_saga/saga_dao.py:20-42 | `create` inserts or overwrites the row for the id and leaves every other row alone |
| SagaStore.UpdateExisting | orchestrated_saga/saga_dao.py:44-61 | `update` overwrites only an existing row. For an absent id the table is unchanged |
| SagaStore.GetOneById | orchestrated_saga/saga_dao.py:63-83 | nothing for an absent id. Otherwise the row's fields, bound to the class its name selects |
| SagaStore.RecordOf | orchestrated_saga/saga_dao.py:33-39 | the row written for a saga holds its name, its data, and its step and status as its configuration |
| SagaStore.CreateThenGet | orchestrated_saga/saga_dao.py:20-83 | reading back what `create` wrote gives the same id, data, step and status, as the registered class |
| SagaStore.WritesAreIsolated | orchestrated_saga/saga_dao.py:20-61 | a write for one id leaves every other id's row, and its absence, unchanged |
| SagaStore.SagaDao.constructor | orchestrated_saga/saga_dao.py:7-13 | the store starts from the given classes and rows |
| SagaStore.SagaDao.Create | orchestrated_saga/saga_dao.py:20-42 | the table becomes the upsert of the saga's row, and the same saga is returned |
| SagaStore.SagaDao.Update | orchestrated_saga/saga_dao.py:44-61 | the table becomes the update-if-present of the saga's row |
| SagaStore.SagaDao.Get | orchestrated_saga/saga_dao.py:63-83 | nothing exactly for an id the table lacks. Otherwise that row's id, data, step and status, bound to the class its name selects in this store's registry |
| StepBuilding.StepBuilder.constructor | orchestrated_saga/step_builder.py:7-10 | a fresh builder has command, action and compensation all unset |
| StepBuilding.StepBuilder.WithCommand | orchestrated_saga/step_builder.py:12-14 | sets only the command and returns the same builder |
| StepBuilding.StepBuilder.WithAction | orchestrated_saga/step_builder.py:16-18 | sets only the action and returns the same builder |
| StepBuilding.StepBuilder.WithCompensation | orchestrated_saga/step_builder.py:20-22 | sets only the compensation and returns the same builder |
| StepBuilding.StepBuilder.Build | orchestrated_saga/step_builder.py:24-28 | the result is local exactly when an action is set, and then its callback is the action. Otherwise it is a participant step whose callback is the command, possibly unset. The compensation is carried over |
| Scenarios.BuilderLastCallWins | orchestrated_saga/step_builder.py:12-28 | a second action replaces the first, and an action beats a command |
| Scenarios.BuilderWithoutCommand | orchestrated_saga/step_builder.py:24-28 | with no action and no command, the result is a participant step with no callback |
| Orchestration.Chosen | orchestrated_saga/saga_manager.py:18-32 | the callback a step runs is one of its two: its compensation in the compensation phase, its action in every other status |
| Orchestration.RunStep | orchestrated_saga/saga_manager.py:17-41 | the step fails exactly when the callback it needs is unset. This is the compensation in compensation, the callback otherwise. Otherwise there is exactly one effect: a local step invokes that callback, and a participant step publishes under `create_order_saga.command` |
| Orchestration.ParticipantStepPublishesItsCommand | orchestrated_saga/saga_manager.py:27-41 | the published message carries the saga id, name and payload of the command the chosen producer returns |
| Orchestration.Round | orchestrated_saga/saga_manager.py:44-45 | a round fails exactly when the callback it needs is unset. Otherwise it leaves the saga where `tick` moves it |
| Orchestration.Drive | orchestrated_saga/saga_manager.py:43-49 | `run_saga` ends in bounds. Without a failure it ran at least one round and stopped in a status that is not pending or compensation. A failure names the step where the run stopped, and the callback that step needs in its status is unset. A run of no rounds changed nothing |
| Orchestration.Respond | orchestrated_saga/saga_manager.py:51-61 | an unknown id raises "not found". A row whose class is not registered raises. Otherwise the first effect is the update of that saga |
| Orchestration.SagaManager.constructor | orchestrated_saga/saga_manager.py:9-11 | the manager holds its store and producer, and its trace is empty |
| Orchestration.SagaManager.StartSaga | orchestrated_saga/saga_manager.py:13-15 | creates a fresh saga at step 0, pending, with the data, and runs it. The trace, the final state and the store are those of `Drive` from there |
| Orchestration.SagaManager.RunCurrentStep | orchestrated_saga/saga_manager.py:17-41 | appends exactly the effects of `RunStep`, or fails with nothing appended |
| Orchestration.SagaManager.RunRound | orchestrated_saga/saga_manager.py:43-46 | runs the step, ticks, and saves exactly once. It is one unfolding of `Drive` |
| Orchestration.SagaManager.RunSaga | orchestrated_saga/saga_manager.py:43-49 | the loop leaves exactly the trace, final configuration, failure and stored row of `Drive` |
| Orchestration.SagaManager.HandleSagaCommandResponse | orchestrated_saga/saga_manager.py:51-61 | on an error nothing is written or published. Otherwise the trace and the stored row are those of `Respond` |
| OrchestrationProperties.RoundEffects | orchestrated_saga/saga_manager.py:17-46 | a completed round writes one save. A local round invokes one callback and publishes nothing. A participant round publishes one command under the topic and invokes nothing |
| OrchestrationProperties.DriveWrites | orchestrated_saga/saga_manager.py:43-49 | one save per round. Every save is of the saga being run, with its name and data, and never an update. The last save holds the final step and status |
| OrchestrationProperties.DrivePublishesAtMostOnce | orchestrated_saga/saga_manager.py:27-49 | a run from pending or compensation publishes at most one command, under the topic. After publishing, the saga is processing, compensating or done, with no failure |
| OrchestrationProperties.DriveStaysInPhase | orchestrated_saga/saga_manager.py:43-49 | a run from pending ends pending, processing or done, never behind its start. A run from compensation ends compensation, compensating or done, never ahead of its start |
| OrchestrationProperties.RunWithCallbacksSetNeverFails | orchestrated_saga/saga_manager.py:17-49 | when every callback a run can reach is set, it never raises. A run that does not start failed ends processing, compensating or done: ticking never fails a saga, only a failed response does. In compensation these are the compensations back to step 0; otherwise the actions up to the last step |
| OrchestrationProperties.LocalForwardRun | orchestrated_saga/saga_manager.py:43-49 | over local steps from pending, a run takes one round per remaining step, publishes nothing and ends done at the last step |
| OrchestrationProperties.LocalForwardActions | orchestrated_saga/saga_manager.py:17-25 | the callbacks such a run invokes are the steps' actions, in plan order |
| OrchestrationProperties.LocalCompensationRun | orchestrated_saga/saga_manager.py:43-49 | over local steps in compensation, a run takes one round per step back to 0, publishes nothing and ends done at step 0 |
| OrchestrationProperties.LocalCompensations | orchestrated_saga/saga_manager.py:17-25 | the callbacks it invokes are the steps' compensations, last step first |
| OrchestrationProperties.ResponseToFinishedSaga | orchestrated_saga/saga_manager.py:57-61 | a response to a failed or done saga changes neither step nor status. Its only effect is one update, and nothing is published |
| OrchestrationProperties.ResponseWritesOnce | orchestrated_saga/saga_manager.py:51-61 | a response to a registered saga, in any status, is written by exactly one update. It is the first write and holds the configuration `tick_command_response` leads to. Every later write is a save of the same saga, one per round. Rounds follow only if that configuration is pending or compensation; otherwise the update is the only effect and the saga stays there |
| LegacyOrchestration.LegacyRound | orchestrated_saga/saga_manager.backup.py:18-53 | the round fails exactly when the needed callback is unset, and has one effect otherwise; a local step's effect invokes that callback. The step stays in bounds, and a self-driving result lowers `Rank` |
| LegacyOrchestration.LegacyLocalRoundRule | orchestrated_saga/saga_manager.backup.py:22-35 | a local round in compensation goes back one step, or ends done at step 0. Forward it goes on one step, or ends done at the last step. From pending or compensation this is where `tick` leaves the saga |
| LegacyOrchestration.LegacyParticipantStepWaits | orchestrated_saga/saga_manager.backup.py:36-51 | a participant step publishes one command and is then processing, or compensating in compensation, even at the last step |
| LegacyOrchestration.LegacyDrive | orchestrated_saga/saga_manager.backup.py:18-60 | the older `run_saga` ends in bounds. Without a failure it stopped outside pending and compensation. A failure names the step where the run stopped, and the callback that step needs in its status is unset |
| LegacyOrchestration.LegacyNextOnResponse | orchestrated_saga/saga_manager.backup.py:72-100 | a successful response to compensating gives done or compensation, and to anything else gives done or pending. A failed response gives failed only at step 0, else compensation |
| LegacyOrchestration.LegacyRespond | orchestrated_saga/saga_manager.backup.py:66-100 | an unknown id or an unregistered class raises. Otherwise the first effect is the update of that saga |
| LegacyOrchestration.ResponseRulesAgreeWhileWaiting | orchestrated_saga/saga_manager.backup.py:72-100 | from processing and compensating, the older response rule equals `NextOnResponse` |
| LegacyOrchestration.LegacyResponseRule | orchestrated_saga/saga_manager.backup.py:72-100 | the exact result for every status. A failed response steps back, or fails at step 0, whatever the status. A success steps back from compensating, done at step 0, and goes forward from any other status, done at the last step. It equals `saga.py`'s rule applied as if the saga were processing, or compensating on a success to a compensating saga |
| LegacyOrchestration.LegacyMovesSagasNotWaiting | orchestrated_saga/saga_manager.backup.py:72-100 | for a saga that is pending, in compensation, failed or done, `saga.py` ignores the response, but the older rule moves it. A success away from the last step reopens it forward as pending. A failure away from step 0 sends it back into compensation |
| LegacyOrchestration.LegacyRevivesFailedSaga | orchestrated_saga/saga_manager.backup.py:72-91 | elsewhere they differ. A successful response to a saga failed at step 0 of two steps revives it as pending at step 1; `saga.py` ignores it |
| LegacyOrchestration.RoundsAgreeUnlessParticipantLast | orchestrated_saga/saga_manager.backup.py:36-51 | from pending or compensation, the two rounds agree exactly when the step is not a participant step with its callback set at the end of the plan |
| LegacyOrchestration.DrivesAgreeWhenLastStepLocal | orchestrated_saga/saga_manager.backup.py:18-60 | when the plan ends with a local step, the older `run_saga` produces exactly the run of the current one |
| LegacyOrchestration.RespondersAgreeWhileWaiting | orchestrated_saga/saga_manager.backup.py:66-100 | for a processing or compensating saga in such a plan, the two response handlers give the same result |
| LegacyOrchestration.LegacyManager.constructor | orchestrated_saga/saga_manager.backup.py:10-12 | the manager holds its store and producer, and its trace is empty |
| LegacyOrchestration.LegacyManager.StartSaga | orchestrated_saga/saga_manager.backup.py:14-16 | creates a saga at step 0, pending, and runs it as `LegacyDrive`. Its handler stays the pending handler |
| LegacyOrchestration.LegacyManager.RunRound | orchestrated_saga/saga_manager.backup.py:18-57 | runs the step, assigns step and status directly, saves once. It is one unfolding of `LegacyDrive`, and the handler is never rebound |
| LegacyOrchestration.LegacyManager.RunSaga | orchestrated_saga/saga_manager.backup.py:18-60 | the loop leaves exactly the trace, final configuration, failure and stored row of `LegacyDrive` |
| LegacyOrchestration.LegacyManager.ApplyResponse | orchestrated_saga/saga_manager.backup.py:72-100 | the direct assignments perform `LegacyNextOnResponse` |
| LegacyOrchestration.LegacyManager.HandleSagaCommandResponse | orchestrated_saga/saga_manager.backup.py:66-100 | on an error nothing is written. Otherwise the trace and the stored row are those of `LegacyRespond` |
| Scenarios.BuildCreateOrderPlan | orders_orchestrated.py:90-101 | building `CreateOrderSaga`'s steps gives local, participant, participant, local, with their callbacks |
| Scenarios.CreateOrderStartWaitsForPayment | orders_orchestrated.py:90-101 | starting an order runs `create_order`, publishes the payment command and waits at step 1, processing |
| Scenarios.CreateOrderPaidWaitsForBooking | orders_orchestrated.py:90-101 | a successful payment moves to step 2, which publishes the booking command and waits |
| Scenarios.CreateOrderBookedIsDone | orders_orchestrated.py:90-101 | a successful booking runs `complete_order` and ends done at step 3 |
| Scenarios.CreateOrderBookingRefusedIsCompensated | orders_orchestrated.py:90-101 | a refused booking cancels the payment, then the order, and ends done at step 0 |
| Scenarios.CreateOrderRunsNeverFail | orders_orchestrated.py:90-101 | no run of `CreateOrderSaga` the saga can reach raises: forward from any step, and in compensation from steps 0 and 1, where its participant steps' failures lead. Steps 2 and 3 have no compensation, and none is needed |
| Scenarios.MockedSagaStartDoesNotWait | orchestrated_saga/tests/test_saga_manager.py:55-64 | the started MockedSaga ends done at step 1 after two rounds. The test expects processing |
| Scenarios.MockedSagaResponsesAfterDone | orchestrated_saga/tests/test_saga_manager.py:66-73 | either response then leaves it done at step 1. The failure flow's expected failed at step 0 is not reached |
| Scenarios.LegacyMockedSagaWaits | orchestrated_saga/tests/test_saga_manager.py:55-64 | under the older manager, with a store that returns the saga it writes, the saga waits at step 1, processing, as the test expects |
| Scenarios.LegacyMockedSagaResponses | orchestrated_saga/tests/test_saga_manager.py:66-73 | under the older manager, with such a store, a success gives done at step 1. A failure compensates step 0 and ends done, not failed |
| Scenarios.MockedSagaSuccessFlow | orchestrated_saga/tests/test_saga_manager.py:55-76 | through the manager and store objects, the success flow ends with the row done at step 1 |

## Left out

- `saga_manager.py` relies on three names that `saga.py` and `saga_dao.py` do not define. Because of this, `saga_manager.py` and both test files fail at import: `saga_manager.py:4`, `tests/test_saga.py:3` and `tests/test_saga_manager.py:6` each import `SagaAttributes`. Even past that import, `run_current_step` would raise AttributeError at `saga_manager.py:18` (`get_status`), and `run_saga` at `saga_manager.py:46` (`save`). The model of the current manager makes three assumptions, about a `Saga` and store revision these files do not show:
  - `save` is `create` (an upsert keeping the saga's own id);
  - `get_status`, `get_current_step`, `get_id` and `get_data` read the fields;
  - `SagaAttributes(data, status, current_step)` builds a saga with a fresh id, that data, at step 0, pending.

  The older manager uses only names the two files define.
- Publishing, subscribing, threads, signal handling and the RabbitMQ plumbing are not modelled. A published command is an effect appended to the manager's trace.
- SQL, `commit` and JSON are not modelled. The table is a map, and JSON encoding and decoding are taken as the identity on `data`.
- The bodies of user callbacks are not modelled. A local callback is recorded as an `Invoked` effect, and `data` is never changed by it. A participant callback is the `produce` parameter.
- Exceptions raised inside callbacks, by the publisher or by the database are not modelled. The only failures modelled are:
  - an unset callback, which raises when called;
  - an unknown saga id;
  - a row whose class is not registered (the base `Saga` has no plan and no name).
- `uuid4` is not modelled; `StartSaga` takes a fresh id as a parameter.
- `run_saga_alt` is an unfinished stub and is not modelled.
- The base `StepDef` and the "Unexpected step definition" branch of the older manager are not modelled; in the model `StepDef` has exactly two variants. This leaves out one source behaviour. A base `StepDef` at a pending step that is not the last is neither local nor participant. `run_current_step` then does nothing, and `Pending.tick` (`orchestrated_saga/saga.py:19-24`) changes nothing. So `run_saga` recurses on the same pending saga until Python's recursion limit. `Drive`'s termination measure depends on that input being excluded.
- Negative indices, the empty plan and status strings outside the six are not modelled:
  - `StartSaga` requires a non-empty plan;
  - a stored row's step must be inside its plan (`TargetInBounds`);
  - statuses are an enumeration.
- Python's recursion limit on `run_saga` is not modelled; the recursion is a loop with a decreasing measure.
- `command_key` and the per-saga concurrency between subscriber threads are not modelled.
- LegacyDrive: requires the saga to be pending or in compensation, the only statuses its callers pass. The code would otherwise treat any other status as forward.
- LegacyManager.RunRound: its handler field is untouched, so it ends stale after a status change. The model states this only through the frame.
