/** The fluent builder that assembles one step definition. */
module StepBuilding {
  import opened Wrappers
  import opened Steps

  class StepBuilder {
    var commandCallback: Option<Callback>
    var actionCallback: Option<Callback>
    var compensationCallback: Option<Callback>

    /** A fresh builder has nothing set. */
    constructor ()
      ensures commandCallback == None && actionCallback == None && compensationCallback == None
    {
      commandCallback := None;
      actionCallback := None;
      compensationCallback := None;
    }

    /** Overwrites the command producer only and hands back the same builder. */
    method WithCommand(command: Option<Callback>) returns (b: StepBuilder)
      modifies this`commandCallback
      ensures b == this
      ensures commandCallback == command
      ensures actionCallback == old(actionCallback) && compensationCallback == old(compensationCallback)
    {
      commandCallback := command;
      b := this;
    }

    /** Overwrites the local action only and hands back the same builder. */
    method WithAction(action: Option<Callback>) returns (b: StepBuilder)
      modifies this`actionCallback
      ensures b == this
      ensures actionCallback == action
      ensures commandCallback == old(commandCallback) && compensationCallback == old(compensationCallback)
    {
      actionCallback := action;
      b := this;
    }

    /** Overwrites the compensation only and hands back the same builder. */
    method WithCompensation(compensation: Option<Callback>) returns (b: StepBuilder)
      modifies this`compensationCallback
      ensures b == this
      ensures compensationCallback == compensation
      ensures commandCallback == old(commandCallback) && actionCallback == old(actionCallback)
    {
      compensationCallback := compensation;
      b := this;
    }

    /**
     * A set action makes a local step, even when a command was set as well; otherwise the
     * step is a participant step around the command, which may be unset. The compensation
     * is carried over unchanged in both cases.
     */
    function Build(): (step: StepDef)
      reads this
      ensures step.LocalStepDef? <==> actionCallback.Some?
      ensures step.LocalStepDef? ==> step.callback == actionCallback
      ensures step.ParticipantStepDef? ==> step.callback == commandCallback
      ensures step.compensationCallback == compensationCallback
    {
      if actionCallback.Some? then LocalStepDef(actionCallback, compensationCallback)
      else ParticipantStepDef(commandCallback, compensationCallback)
    }
  }
}
