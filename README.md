# Enterprise Conference Management Agent: tools and workflow tree

This project models the deterministic core of the Enterprise Conference
Management Agent (`agent.py`). That core has two parts:

- **The host tools** the language-model agents call. They act on three pieces
  of state:
  - the session's state dictionary (`tool_context.state`);
  - the loop-escalation flag (`tool_context.actions.escalate`);
  - the process-wide guest database `GUEST_DATABASE`, a dict from email to
    name that starts with two guests.

  `update_session_state` writes the event type, city and budget.
  `exit_loop` raises the escalation flag. `add_guest` writes one entry of the
  database. `get_guest_list` copies the database into the state and returns it
  as JSON. `send_email` writes one simulated email per guest from the
  `email_draft` state value.
- **The planning workflow**, which is declared as constant data and has no
  code of its own. It is a sequence of four stages: intake; a parallel group
  of three vendor scouts followed by a plan synthesizer; a refinement loop of
  an accountant and a cost cutter, capped at three iterations; and a final
  report. For each agent the model records four things: its name, the state
  keys its instruction template interpolates (`{{key}}`), its output key,
  and its tools.

Modules:

- `Wrappers`: `Option` and `Result`.
- `Decimal`: the decimal text Python's f-string gives a non-negative `int`, with its inverse.
- `GuestTable`: a Python dict from email to name as a value. It keeps the
  insertion order, which iteration and `json.dumps` follow.
- `Tools`: the `ToolContext` and `GuestDatabase` classes and one method per tool.
- `Workflow`: the `Unit` tree (leaf, sequential, parallel, loop), the declared
  agents, and lemmas about the declared tree.

Three facts about `agent.py` shape the model:

- The guest database is one global table shared by all sessions.
  `add_guest` reaches it without a tool context, so `GuestDatabase` is a
  class separate from `ToolContext`.
- Escalation is a flag the tool sets on its context.
- Once there are guests, `send_email` subscripts `email_draft`. A missing
  draft raises `TypeError`, and a draft without `subject` or `body` raises
  `KeyError`. The model returns these as `Err`.

The database starts with two entries and `add_guest` only inserts, so in
the program as written it is never empty. The empty-table branches of
`get_guest_list` and `send_email` are therefore unreachable there. They are
still modelled for a table that starts empty (`GuestTable.PutNonEmpty`).

## Model

| member | source | states |
|---|---|---|
| `Tools.UpdateSessionState` | agent.py:56-63 | `event_type` and `city` hold the given strings and `budget` holds the given int. The state's keys grow by exactly these three. Every other key keeps its value. The result is the fixed confirmation. |
| `Tools.ExitLoop` | agent.py:68-72 | The escalation flag is true afterwards, whatever it was before. Only the flag may change. The result is "Budget approved. Finalizing plan." |
| `Tools.ExitLoopTwice` | agent.py:68-72 | A second `exit_loop` leaves the context as the first left it, so escalation is idempotent. The state is untouched and both calls return the same message. |
| `Tools.GuestDatabase.constructor` | agent.py:45-48 | The database starts with exactly two entries, john.doe@email.com (John Doe) then kai.trump@email.com (Kai Trump), in that order. |
| `Tools.InitialGuestsValid` | agent.py:45-48 | The initial table is well formed and has two guests. |
| `Tools.GuestDatabase.AddGuest` | agent.py:80-84 | The table afterwards is `Put(old table, email, name)` and stays well formed. The result is "Successfully added <name> to the guest list.". |
| `GuestTable.Put` | agent.py:83 | `email` maps to `name`. The keys become the old keys plus `email`. Every other entry is unchanged. A new email goes to the end of the order and an existing one keeps its place. Well-formedness is preserved. |
| `GuestTable.PutIdempotent` | agent.py:80-84 | Repeating the same `add_guest` changes nothing further. |
| `GuestTable.PutLastWriteWins` | agent.py:83 | A later name for the same email replaces the earlier one, as if only the later call had happened. |
| `GuestTable.PutOrderMatters` | agent.py:83 | Adding two new guests in either order gives the same name mapping but a different iteration order. That order is the one `json.dumps` and `send_email` follow. |
| `GuestTable.PutNonEmpty` | agent.py:80-84 | After any `add_guest` the table is not empty. |
| `GuestTable.Dumps` | agent.py:93 | `json.dumps` of the table is a braced object. It is `{}` for an empty table. Otherwise it opens with the first-inserted email as its first key. |
| `GuestTable.SizeIsLength` | agent.py:119-125 | For a well-formed table, `len(table)` equals the number of entries iteration visits. |
| `GuestTable.EmptyIffNoOrder` | agent.py:90-91 | A well-formed table is empty exactly when iteration visits nothing. |
| `Tools.GetGuestList` | agent.py:87-93 | With an empty database: returns "The guest list is currently empty." and leaves the state unchanged. Otherwise: sets `state["guest_list"]` to the database's contents, changes no other key, and returns the table's JSON text. The database is never changed. |
| `Tools.Subscript` | agent.py:121-122 | `value[key]` succeeds exactly on a dict holding `key`. On a dict without the key it raises `KeyError(key)`. On `None`, a string or an int it raises `TypeError`. |
| `Tools.DraftOf` | agent.py:111-122 | The draft yields a subject and body exactly when `state["email_draft"]` is a dict with both fields. A missing or non-dict draft raises `TypeError`. A dict without `subject` raises `KeyError('subject')`. A dict with `subject` but no `body` raises `KeyError('body')`. |
| `Tools.Get` | agent.py:111 | `state.get(key)` gives the stored value when the key is present and `None` otherwise. |
| `Tools.SendEmail` | agent.py:102-125 | Changes nothing. With no guests: returns "There are no guests on the list to email." and no emails, whatever the draft. With guests and a bad draft: returns the exception `DraftOf` gives and no emails. Otherwise: one email per guest in insertion order, each with that guest's name and address and the draft's subject and body. The message reports `len(guests)`. |
| `Tools.EveryGuestEmailed` | agent.py:119-123 | Every guest in the database receives an email with their own address and name. |
| `Tools.AddedMessage` | agent.py:84 | The message is "Successfully added ", then the name unchanged, then " to the guest list.". |
| `Tools.SentMessage` | agent.py:125 | The message is the fixed prefix, then the decimal text of the count, then " guests.". |
| `Tools.SentMessageCount` | agent.py:125 | The count in `send_email`'s success message is a run of digits that reads back as the number of guests. |
| `Decimal.Show` | agent.py:125 | The decimal text of a count is only digits. It has no leading zero unless the count is 0. |
| `Decimal.ParseShow` | agent.py:125 | Reading the decimal text back gives the number. |
| `Decimal.ShowInjective` | agent.py:125 | Different counts give different texts. |
| `Workflow.ToolWrites` | agent.py:56-93 | Only `update_session_state` and `get_guest_list` write state keys. The keys they write are the three event parameters and `guest_list`. `exit_loop`, `add_guest`, `send_email`, search and `sum_costs` write no state key. |
| `Workflow.LeafWrites` | agent.py:188-325 | The state keys each leaf can write. The intake agent writes `event_type`, `city` and `budget` through `update_session_state`. Each other agent writes only its output key, and the final report writes nothing. |
| `Workflow.ScoutOutputKeys` | agent.py:198-235 | The parallel group is venue, catering and entertainment scout, in that order. Their output keys are `venue_options`, `catering_options` and `entertainment_options`, and their write sets are pairwise disjoint. |
| `Workflow.ParallelLogisticsSearchWrites` | agent.py:381-384 | The parallel group writes exactly the three scout keys. |
| `Workflow.InitialPlanningWrites` | agent.py:394-397 | Initial planning writes the three scout keys and `current_plan`. |
| `Workflow.BudgetOptimizerWrites` | agent.py:367-403 | The refinement loop, and the stage that wraps it, write exactly `evaluation` and `current_plan`. |
| `Workflow.BudgetRefinementShape` | agent.py:367-371 | The budget optimizer's only stage is the loop. The loop's cap is 3 and its body is accountant then cost cutter. |
| `Workflow.RefinerWritesBack` | agent.py:250-300 | The cost cutter reads the accountant's `evaluation` and writes `current_plan`, which the accountant reads. `exit_loop` is bound to the cost cutter and not to the accountant. |
| `Workflow.PlanningWorkflowStages` | agent.py:406-414 | The top-level sequence is `intake_agent`, `initial_planning`, `budget_optimizer`, `final_report`. |
| `Workflow.PlanningWorkflowLeafOrder` | agent.py:381-414 | The leaves in declaration order: intake, the three scouts, synthesizer, accountant, cost cutter, final report. |
| `Workflow.PlanningWorkflowWrites` | agent.py:406-414 | The keys a run can write: the three event parameters, the three scout keys, `current_plan` and `evaluation`. |
| `Workflow.PlanningWorkflowParallelDisjoint` | agent.py:381-384 | No parallel group in the whole tree has two children that write one key. |
| `Workflow.PlanningWorkflowEscalation` | agent.py:283-300 | Every leaf bound to `exit_loop` lies inside a loop. |
| `Workflow.InitialPlanningProvided` | agent.py:198-248 | Given only the intake agent's declared keys, each scout's inputs are among them at fan-out. The synthesizer's inputs are among the scouts' declared output keys. |
| `Workflow.BudgetOptimizerProvided` | agent.py:250-300 | Given `budget` and `current_plan`, the accountant's inputs are covered. The cost cutter's input `evaluation` is the accountant's declared output key. |
| `Workflow.PlanningWorkflowProvided` | agent.py:406-414 | Starting from an empty state, every key an instruction template reads is among the keys earlier stages declare they write (their output keys and their bound tools' writes). |
| `Workflow.PlanningWorkflowProvidedFrom` | agent.py:406-414 | The same holds from any starting state, such as a session reused across requests. |

## Left out

- Everything the language model does: instruction wording, the agents'
  reasoning, `google_search`, the `AgentTool` wrappers and the `base_agent`
  choice of tool. These are remote, nondeterministic calls into a library
  that is not part of this model.
- How `SequentialAgent`, `ParallelAgent` and `LoopAgent` run their children:
  ordering, concurrency, joins, and escalation ending the loop. That
  behaviour belongs to the agent framework. The `Workflow` lemmas are about
  the declared tree only.
- `sum_costs`: floating-point summation.
- `EmailDraft` and `output_schema` validation of the communications agent's
  answer. This is done by the schema library and the framework.
- The agents outside the planning workflow: `guest_list`,
  `communications_agent`, `linkedin_research`, `linkedin_agent` and
  `base_agent`. They are routing targets chosen by the model at run time.
- `process_request` and `enterprise_cma`: session creation, event streaming,
  exception-to-message conversion and console output.
- `print` output and `dotenv`/environment model configuration. The one
  exception is `send_email`: the emails it prints are its `outbox` result.
- `GuestTable.Dumps`: the JSON text uses `json.dumps`' default separators.
  It does not model quote and backslash escaping or the `\uXXXX` escaping of
  non-ASCII characters. Its own contract only says the text is a braced
  object.
- `Tools.GetGuestList`: Python stores the database dict itself, so later
  `add_guest` calls are visible through `state["guest_list"]`. The model
  stores a copy of the contents, without its key order.
- `Tools.SendEmail`: when the draft is bad, Python has already printed part
  of the first email before it raises. The model returns no emails on that
  path.
- `Workflow.Provided`: counts a key as written once an earlier leaf declares
  it, through its output key or through a tool bound to it. The model
  assumes each leaf calls the state-writing tools it is bound to. Nothing in
  the code forces this: if the intake agent never calls
  `update_session_state`, the scouts' `{{event_type}}` and `{{city}}` have
  nothing to interpolate.
- `Tools.Value`: a dict in the state holds only string values, and lists and
  floats cannot be stored. So the model cannot show that a non-string
  `body` makes `"\nBody:\n" + email_draft["body"]` raise `TypeError`, while
  a non-string `subject` formats without error. The communications agent's
  schema makes both fields strings.
- The framework's state-delta bookkeeping behind `tool_context.state`. The
  state is a plain map.
