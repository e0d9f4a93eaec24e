/** The activity context of the running flow: which execution (a chat turn
    or a task run) is under way, and which identity, team and role the agent
    acts as. Two slots, each empty until first set; reads answer only when
    both are filled.

    The slots are per-flow context variables in the SDK; this model holds the
    slots of one flow. */
module ActivityContext {
  import opened Wrappers

  datatype ExecutionType = Chat | Task

  datatype ExecutionContext = ExecutionContext(executionId: string, executionType: ExecutionType)

  datatype AgentContext = AgentContext(identity: string, team: string, role: string)

  class ContextSlots {
    var executionContext: Option<ExecutionContext>
    var agentContext: Option<AgentContext>

    /** Both slots start out unset. */
    constructor ()
      ensures executionContext == None && agentContext == None
    {
      executionContext := None;
      agentContext := None;
    }

    /** The (agent, execution) pair when both slots are set, None otherwise.
        Reads only: neither slot changes. */
    method Get() returns (r: Option<(AgentContext, ExecutionContext)>)
      ensures r.None? <==> agentContext.None? || executionContext.None?
      ensures r.Some? ==> r.value.0 == agentContext.value && r.value.1 == executionContext.value
    {
      var agentCtx := agentContext;
      var executionCtx := executionContext;
      if agentCtx.None? || executionCtx.None? {
        return None;
      }
      return Some((agentCtx.value, executionCtx.value));
    }

    /** Overwrites both slots; identity, team and role default to empty. */
    method Set(executionId: string, executionType: ExecutionType,
               identity: string := "", team: string := "", role: string := "")
      modifies this
      ensures executionContext == Some(ExecutionContext(executionId, executionType))
      ensures agentContext == Some(AgentContext(identity, team, role))
    {
      executionContext := Some(ExecutionContext(executionId, executionType));
      agentContext := Some(AgentContext(identity, team, role));
    }
  }

  /** What a reader sees after a write: exactly the values written, whatever
      the slots held before, so of two writes the last one wins. */
  method SetThenGet(slots: ContextSlots, executionId: string, executionType: ExecutionType,
                    identity: string, team: string, role: string)
    returns (r: Option<(AgentContext, ExecutionContext)>)
    modifies slots
    ensures r == Some((AgentContext(identity, team, role), ExecutionContext(executionId, executionType)))
  {
    slots.Set(executionId, executionType, identity, team, role);
    r := slots.Get();
  }

  /** A write that omits identity, team and role reads back with all three
      empty. */
  method SetDefaultsThenGet(slots: ContextSlots, executionId: string, executionType: ExecutionType)
    returns (r: Option<(AgentContext, ExecutionContext)>)
    modifies slots
    ensures r == Some((AgentContext("", "", ""), ExecutionContext(executionId, executionType)))
  {
    slots.Set(executionId, executionType);
    r := slots.Get();
  }

  /** Nothing is read back before the first write. */
  method GetBeforeSet() returns (r: Option<(AgentContext, ExecutionContext)>)
    ensures r == None
  {
    var slots := new ContextSlots();
    r := slots.Get();
  }
}
