# roster-sdk core, modelled in Dafny

This project models three small pieces of the roster agent SDK:

- **The task registry** (`Tasks.TaskManager`, `task_manager.dfy`). The agent keeps a map from task name to the unit running that task. `RunTask` refuses a name that is already registered and otherwise registers exactly that name. `Complete` is the supervisory wrapper's reaction to the executor finishing. The executor's outcome is given as an argument: a result, a cancellation, or an exception message. So is the way the call to the status collaborator goes: delivered, a client exception, or another exception. `Complete` sends exactly one report, then unregisters the name on every path. Only a non-client exception raised while reporting leaves the wrapper. `Teardown` cancels every registered unit exactly once and empties the registry. The wrapper's steps are kept in order as a ghost trace: each report sent and each name removed. The cancellations delivered are kept in a ghost log.
- **Team layout queries** (`Team`, `team.py`). Python dictionaries keep insertion order, and the peer and manager queries depend on that order. So each dictionary is a sequence of (key, value) pairs with distinct keys (`Dict<V>`). Peer lists and the first manager are specified as functions (`PeersIn`, `FirstManager`). The loop-based methods that compute them are proved equal to those functions.
- **The activity context** (`ActivityContext.ContextSlots`, `activity_context.dfy`). The current flow holds two optional slots. `Set` overwrites both. `Get` returns the (agent, execution) pair only when both are set.

The report the wrapper sends loses information in two cases. A failure whose message is empty reads exactly like a success with an empty result. A failure whose message is `"Task cancelled"` reads exactly like a cancellation. `Tasks.ReportCollisions` exhibits both cases. `Tasks.ReportRoundTrip` proves that every other outcome can be read back from its report.

The task manager defines no cancel-by-name operation, although python/roster_sdk/agent/interface.py:43 calls `self.task_manager.cancel_task`; the model has none either. `run_task` raises `ValueError` with the message `Task <name> is already running` (manager.py:69), while python/roster_sdk/agent/interface.py:36 catches `TaskManagerException`; the model returns that `ValueError` and does not model the caller's handling.

`Tasks.FailedTaskScenario` shows the registry's contracts in use: a second start of the same name is refused, and a failing executor is reported once and then unregistered.

## Model

| member | source | states |
|---|---|---|
| `Tasks.TaskManager.constructor` | python/roster_sdk/client/agent/task/manager.py:17-19 | A new manager has an empty registry and has sent no reports. |
| `Tasks.TaskManager.RunTask` | python/roster_sdk/client/agent/task/manager.py:61-72 | A registered name fails with `ValueError("Task <name> is already running")` and leaves the registry unchanged. A fresh name returns normally and adds exactly that key, bound to a unit started with the given description and assignment; all other entries are unchanged. No report is sent and no cancellation is delivered. |
| `Tasks.TaskManager.FinishTask` | python/roster_sdk/client/agent/task/manager.py:25-39 | Appends exactly one step to the trace: a finish_task call with the given arguments. A client exception is swallowed. Only another exception propagates. It changes nothing else; the order of report and removal is fixed by `Complete`'s trace postcondition. |
| `Tasks.TaskManager.Complete` | python/roster_sdk/client/agent/task/manager.py:41-59 | For a registered name, the trace grows by exactly two steps in this order: the report for that unit's outcome, then the removal of the name. So the report list grows by exactly that one report. The registry loses exactly that name; every other entry is unchanged. The executor's exception never escapes. The only exception leaving the wrapper is a non-client exception from reporting, and removal happens even then. The registry invariant is kept. |
| `Tasks.TaskManager.Teardown` | python/roster_sdk/client/agent/task/manager.py:74-77 | Delivers one cancellation to each unit that was registered: as many signals as entries, each one the unit registered under its name, and every unit covered. Leaves the registry empty and sends no report. |
| `Tasks.ReportRoundTrip` | python/roster_sdk/client/agent/task/manager.py:48-57 | The report names the task. Reading it back recovers the outcome: `error=""` means success with the reported result, the cancellation text means cancellation, and any other error is a failure with that message. This holds for every outcome except the two collisions below. |
| `Tasks.ReportCollisions` | python/roster_sdk/client/agent/task/manager.py:50-57 | A failure with an empty message sends the same report as a success with an empty result. A failure whose message is `"Task cancelled"` sends the same report as a cancellation. |
| `Team.Lookup` | python/roster_sdk/models/resources/team.py:88-89 | `dict.get`: the result is `Some(v)` exactly when the pair `(k, v)` is in the dictionary, and `None` exactly when `k` is not a key. |
| `Team.Layout.NonManagerRoles` | python/roster_sdk/models/resources/team.py:49-51 | A name is in the result exactly when it is a key of `roles` and not a key of `management_groups`. |
| `Team.TeamSpec.GetRole` | python/roster_sdk/models/resources/team.py:88-89 | Returns `Some(role)` exactly when `(name, role)` is in the layout's roles, and `None` when the name is absent. |
| `Team.TeamSpec.GetRolePeers` | python/roster_sdk/models/resources/team.py:91-97 | The loop's result equals `PeersIn` of the peer groups: the concatenation, in peer-group order, of every group containing the role. |
| `Team.PeersInAppend` | python/roster_sdk/models/resources/team.py:91-97 | The peers found in two runs of groups, one after the other, are the peers of the first run followed by those of the second. So the result is built group by group in order, and duplicates are kept. |
| `Team.PeersInMembership` | python/roster_sdk/models/resources/team.py:91-97 | `x` is a peer of `r` exactly when some peer group contains both. |
| `Team.PeersInEmpty` | python/roster_sdk/models/resources/team.py:91-97 | A role's peer list is empty exactly when no peer group contains the role. |
| `Team.SelfIsPeer` | python/roster_sdk/models/resources/team.py:94-96 | A role that belongs to some peer group is in its own peer list. |
| `Team.PeersSymmetric` | python/roster_sdk/models/resources/team.py:153-157 | `b` is a peer of `a` exactly when `a` is a peer of `b`. |
| `Team.FirstManager` | python/roster_sdk/models/resources/team.py:99-104 | `None` exactly when no management group lists the role. Otherwise the result is the key of a group that lists the role, and no earlier group lists it. |
| `Team.TeamSpec.GetRoleManager` | python/roster_sdk/models/resources/team.py:99-104 | The loop with early return computes `FirstManager` of the management groups. |
| `Team.TeamResource.InitialState` | python/roster_sdk/models/resources/team.py:137-139 | The new resource has kind `Team`, empty metadata and the given spec unchanged. Its status is named after the team and is `"active"`, the status default at team.py:109. |
| `Team.TeamResource.GetRole` | python/roster_sdk/models/resources/team.py:141-142 | Delegates to the spec: `Some(role)` exactly when `(name, role)` is in the spec's roles. |
| `Team.TeamResource.GetRoleManager` | python/roster_sdk/models/resources/team.py:144-145 | Delegates to the spec: the first manager of the role in the spec's management groups. |
| `Team.TeamResource.GetMemberByRole` | python/roster_sdk/models/resources/team.py:147-148 | Returns `Some(member)` exactly when `(role, member)` is in the spec's members, and `None` when the role has no member. |
| `Team.TeamResource.GetRolePeers` | python/roster_sdk/models/resources/team.py:150-151 | Delegates to the spec: the concatenated peer groups of the role. |
| `Team.TeamResource.RolesSharePeerGroup` | python/roster_sdk/models/resources/team.py:153-157 | The scan of `role_one`'s peers answers true exactly when some peer group contains both roles. With `PeersSymmetric` and `PeersInMembership`, that is exactly when `role_two` is among those peers, so the answer is symmetric. |
| `ActivityContext.ContextSlots.constructor` | python/roster_sdk/agent/context.py:6-11 | Both slots start unset. |
| `ActivityContext.ContextSlots.Get` | python/roster_sdk/agent/context.py:14-19 | Returns `None` exactly when either slot is unset. Otherwise it returns the pair (agent context, execution context) from the slots. It has no write permission, so neither slot changes. |
| `ActivityContext.ContextSlots.Set` | python/roster_sdk/agent/context.py:22-41 | Both slots are overwritten with exactly the given execution id and type, and exactly the given identity, team and role. Neither result depends on the previous contents. |
| `ActivityContext.SetThenGet` | python/roster_sdk/agent/context.py:22-41 | After a write, a read returns exactly the five values written, whatever the slots held before. So the last write wins. |
| `ActivityContext.SetDefaultsThenGet` | python/roster_sdk/agent/context.py:25-27 | A write that omits identity, team and role reads back with all three equal to `""`. |
| `ActivityContext.GetBeforeSet` | python/roster_sdk/agent/context.py:6-19 | Before any write, a read returns `None`. |

## Left out

- Real concurrency is not modelled. This covers asyncio task creation, cooperative delivery of cancellation, and interleaving. An executor's completion is the explicit step `Complete`, given the outcome and the result of the reporting call.
- The per-flow isolation of context variables is not modelled. `ContextSlots` holds the slots of one flow.
- Completion of a unit that `Teardown` cancelled is not modelled. `Complete` names the finishing unit only by its task name and requires that name to be registered, so it always acts for the unit currently registered; a stale unit cannot be represented. In the source, teardown replaces the dictionary (manager.py:77). A unit cancelled before it first ran never enters the `try` at manager.py:48, so it sends no report and deletes nothing; the same holds if the event loop stops before the unit runs again. A cancelled unit that had already started later reaches its `finally` (manager.py:59), and one of two things happens. If the name was not registered again, the `del` raises `KeyError`. If `run_task` registered the same name again (manager.py:70-72), the stale unit reports with its own old description and assignment (manager.py:51-53) and then deletes the new unit's entry without error.
- Exceptions from the executor that are not `Exception` subclasses are not modelled. These include `KeyboardInterrupt` and `SystemExit`. For them the source sends no report, unregisters the name in `finally`, and lets the exception propagate.
- Tasks.TaskManager.Teardown: cancellations are delivered once each but in an unspecified order. The source cancels in the dictionary's insertion order.
- The executor callable and the status collaborator (`TaskInterface`) are not modelled as code. Their observable behaviour enters as the `Outcome` and `Reporting` arguments. `TaskManager.from_env` (environment configuration) is left out.
- `TaskAssignment` is modelled with the fields its callers read: identity, team, role and agent name. python/roster_sdk/models/resources/task.py is not part of this model.
- Logging in `_finish_task` is left out. It is a side effect with no effect on the state.
- The team resource's `api_version` default comes from the constants module, which is not part of this model. Pydantic's validation of `api_version` and `kind` is left out too.
