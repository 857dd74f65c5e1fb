/** Step definitions: the entries of a saga's plan. */
module Steps {
  import opened Wrappers

  /**
   * A reference to a user callback. What the callback does is not modelled: for a local step
   * the model records that it ran, for a participant step the command it produces is supplied
   * by the orchestrator's caller.
   */
  datatype Callback = Callback(name: string)

  /**
   * A step is exactly one of two kinds. A local step runs its `callback` (the action) or its
   * `compensationCallback` inside the orchestrator; a participant step's callbacks produce the
   * command (or the compensating command) sent to another service. Construction checks
   * nothing, so either callback may be unset.
   */
  datatype StepDef =
    | LocalStepDef(callback: Option<Callback>, compensationCallback: Option<Callback>)
    | ParticipantStepDef(callback: Option<Callback>, compensationCallback: Option<Callback>)
}
