/**
 * The agent suspension dialog (`SuspendAgentModal`): the same decision as
 * the sub-administrator dialog, confirmed with the agent's id only.
 */
module SuspendAgent {
  import opened Wrappers
  import opened Domain
  import SuspendUser

  /** An agent whose status is absent is offered a reactivation. */
  lemma UndefinedStatusReactivates(reason: string)
    ensures !SuspendUser.IsSuspending(None)
    ensures SuspendUser.ReasonSent(None, reason) == None
  {
  }

  /** What submit hands to `onConfirm`. */
  datatype Confirmation = Confirmation(agentId: string, reason: Option<string>)

  class SuspendDialog {
    var isOpen: bool
    var agent: Option<AgentProfile>
    var reason: string

    constructor (isOpen: bool, agent: Option<AgentProfile>)
      ensures this.isOpen == isOpen && this.agent == agent && reason == ""
    {
      this.isOpen, this.agent := isOpen, agent;
      reason := "";
    }

    /** Nothing is rendered without an agent. */
    predicate Rendered()
      reads this
    {
      agent.Some?
    }

    method ReasonChange(text: string)
      modifies this
      ensures reason == text && isOpen == old(isOpen) && agent == old(agent)
    {
      reason := text;
    }

    /** The `isOpen` effect: closing clears the reason. */
    method OpenChange(open: bool)
      modifies this
      ensures isOpen == open && agent == old(agent)
      ensures reason == if open then old(reason) else ""
    {
      isOpen := open;
      if !open {
        reason := "";
      }
    }

    /** `handleSubmit`: the agent's id and the decided reason, then close. */
    method Submit() returns (confirmed: Confirmation)
      requires Rendered()
      modifies this
      ensures confirmed == Confirmation(old(agent).value.id, SuspendUser.ReasonSent(old(agent).value.status, old(reason)))
      ensures !isOpen && reason == "" && agent == old(agent)
    {
      confirmed := Confirmation(agent.value.id, SuspendUser.ReasonSent(agent.value.status, reason));
      OpenChange(false);
    }
  }
}
