# discord-twitch-schedule-sync: the reconciliation pass

The service mirrors a Twitch broadcast schedule (the *source*) as Discord scheduled events (the *mirror*). Every few minutes it runs one reconciliation pass, `sync()`:

1. It fetches both event lists.
2. It keeps only the mirror events the bot itself created. It keys each one by the text after the last `#` of its description.
3. It splits the events into three groups:
   - source events to create, whose uid matches no key;
   - mirror events to delete, whose key matches no uid;
   - mirror events to edit, whose key matches a uid.
4. It issues the creates, then the deletes, then the edits. The first failing call ends the pass.

A create whose start is already past is handled by its recurrence rule:
- with a rule, it is moved to the rule's next occurrence;
- without a rule, it is dropped.

An edit is sent only when the mirror event is not equivalent to its first matching source event. A recurring source event's edit starts at the next occurrence after the mirror event's current start and keeps the mirror event's duration.

The project has five modules:

- `Events`: the values of the pass.
  - The create and edit request bodies, the mirror events and the source entries.
  - The log entries `Create(payload)`, `Delete(id)` and `Edit(id, update)`.
  - The planned steps: a call, or the panic of an `unwrap` on a missing next occurrence.
- `Correlation`: `rsplit_once('#')` and the correlation key.
- `Partition`: the bot filter and the three groups, as functions over sequences. `Matching` is the list of source events with a given uid.
- `Payload`: what one event contributes to the pass.
  - The re-anchored create request.
  - The copied or rescheduled edit request.
  - The step (nothing, one call, or the panic) for one create candidate or one edit candidate.
- `Sync`: the pass.
  - `Plan` lists every step in the order the three loops take them.
  - `Apply` plays a plan against the platform's answers and stops at the first rejected call or panic.
  - `SyncRun` is the whole pass as a function.
  - `RunSync` and its loop methods are the pass as the source runs it: three loops that append to an action log, building the re-anchored and edit requests field by field. They are proved equal to `SyncRun`. The lemmas state ordering, fail-fast, justification and completeness for `SyncRun`.

Parameters of the model:
- `now` and the bot id.
- `nextDate`: the recurrence rule's next-occurrence function. `None` stands for the value on which the source's `unwrap` panics.
- `compare`: the equivalence test between a source event's create request and a mirror event.
- `accept(n, a)`: whether the platform accepts call `a` after `n` earlier calls.
- The two fetch results, each a list or an error.

Where the code and the design notes disagree, the model follows the code:

- **Past one-off creates.** The design notes say a past create is still sent. The code drops a past event without a rule (`continue` at `src/main.rs:57`), and so does the model (`Payload.CreatePlan`).
- **Unkeyed mirror events.** The design notes describe a mirror event without `#` as left alone. The code gives it the key `""` (`src/main.rs:24`). When the bot owns it and no source uid is empty, it is deleted (`Partition.UnkeyedOwnedDeleted`).

## Model

| member | source | states |
|---|---|---|
| Correlation.RSplitOnce | src/main.rs:24 | No split exactly when the character is absent. Otherwise the input is the left part, the character and the right part, and the right part does not contain the character, so the split is at the last occurrence. |
| Correlation.RSplitOnceUnique | src/main.rs:24 | Splitting `before + [c] + after` where `after` has no `c` gives back exactly `(before, after)`. |
| Correlation.Key | src/main.rs:24 | The key is `""` when the description has no `#`. Otherwise it is the description's suffix right after a `#`, and it contains no `#`: the text after the last `#`. |
| Correlation.KeyRoundTrip | src/main.rs:24 | A description ending in `#` followed by a `#`-free uid has that uid as its key. |
| Partition.Owned | src/main.rs:19-27 | The bot-owned list holds each mirror event with the bot's creator id, paired with its key, as often as it occurs in the mirror list, and nothing else. |
| Partition.ToCreate | src/main.rs:30-37 | A source event is in the create group exactly when no bot-owned key equals its uid, with its multiplicity kept. |
| Partition.ToDelete | src/main.rs:64-71 | A bot-owned event is in the delete group exactly when no source uid equals its key, with its multiplicity kept. |
| Partition.ToEdit | src/main.rs:78-84 | A bot-owned event is in the edit group exactly when some source uid equals its key, with its multiplicity kept. |
| Partition.Matching | src/main.rs:87-96 | The match list is empty exactly when no source uid equals the key. Its first element is the event of the earliest source entry with that uid. Its elements are exactly the events of the entries with that uid. |
| Partition.DeleteEditPartition | src/main.rs:64-84 | The delete and edit groups are disjoint, and together they are the bot-owned list as a multiset. |
| Partition.EditsHaveMatch | src/main.rs:86-96 | Every event of the edit group has a first matching source event, so the edit loop never skips one for want of a match. |
| Partition.UnkeyedOwnedDeleted | src/main.rs:22-24 | A bot-owned mirror event without `#` gets the key `""`. It is in the delete group whenever no source uid is empty. |
| Partition.ForeignUntouched | src/main.rs:19-27 | A keyed event whose creator is not the bot is in neither the delete group nor the edit group. |
| Partition.OwnedAppend | src/main.rs:19-27 | The bot filter distributes over concatenation, so list order is kept. |
| Partition.ToCreateAppend | src/main.rs:30-37 | The create filter distributes over concatenation, so list order is kept. |
| Partition.ToDeleteAppend | src/main.rs:64-71 | The delete filter distributes over concatenation, so list order is kept. |
| Partition.ToEditAppend | src/main.rs:78-84 | The edit filter distributes over concatenation, so list order is kept. |
| Payload.Reanchored | src/main.rs:42-52 | The moved create request starts at the given time and keeps the original duration. Its rule starts at the new start and is otherwise unchanged. Name, description, privacy level, entity type and metadata are kept. |
| Payload.Copied | src/main.rs:103-109 | The edit request carries the source event's name, description, start, end and rule. |
| Payload.Rescheduled | src/main.rs:104-120 | The edit request has the source event's name and description. It starts at the given time and lasts as long as the mirror event. Its rule starts at the new start and is otherwise the source event's rule. |
| Payload.CreatePlan | src/main.rs:40-60 | A future event is sent unchanged. A past event is dropped exactly when it has no rule. The pass panics exactly when a past recurring event has no next occurrence. Otherwise the event is sent re-anchored at the next occurrence after its start. |
| Payload.EditPlanSpec | src/main.rs:86-129 | An edit is planned exactly when a first matching source event exists and is not equivalent. Any call edits this mirror event's id with a request built from that first match. The pass panics exactly when the first match recurs and has no next occurrence after the mirror event's start. |
| Sync.RunSync | src/main.rs:12-133 | The calls the loops issue and the way the pass ends equal `SyncRun`: fetch errors first, then the creates, deletes and edits in plan order, stopping at the first rejected call or panic. |
| Sync.IssueCreates | src/main.rs:39-61 | The create loop either takes every create step and leaves the later steps to do, or ends the pass exactly where the plan does. |
| Sync.IssueCreate | src/main.rs:40-60 | One create turn issues this candidate's planned call (or panics) with the outcome `Apply` gives it. |
| Sync.IssueDeletes | src/main.rs:73-75 | The delete loop either issues a delete for every event of the group, leaving the edits to do, or ends at the first rejected delete. |
| Sync.IssueEdits | src/main.rs:86-130 | The edit loop either takes every edit step, or ends the pass exactly where the plan does. |
| Sync.IssueEdit | src/main.rs:87-129 | One edit turn issues this mirror event's planned edit (or skips it, or panics) with the outcome `Apply` gives it. |
| Sync.UpdatePayload | src/main.rs:102-124 | Built field by field, the edit request is the copied request without a rule. With a rule it is the request rescheduled at the next occurrence after the mirror event's start, and none when that occurrence is missing. |
| Sync.PlanSplit | src/main.rs:39-130 | The plan is the create steps followed by the delete and edit steps. |
| Sync.CreatesPlanAt | src/main.rs:39 | The create steps from a position on are that candidate's step followed by the rest, in list order. |
| Sync.EditsPlanAt | src/main.rs:86 | The edit steps from a position on are that event's step followed by the rest, in list order. |
| Sync.ApplyCons | src/main.rs:54 | A planned panic ends the pass with the log unchanged. A planned call is logged, and it either lets the pass continue or ends it as rejected. |
| Sync.CallsAppend | src/main.rs:39-130 | The calls of two step lists taken in turn are the first list's calls, then the second's only when the first holds no panic. |
| Sync.ApplyPrefix | src/main.rs:54-129 | A pass never removes a call from the log. What it adds is a prefix of the planned calls. |
| Sync.ApplyFailFast | src/main.rs:54-129 | Every call but a rejected last one was accepted. A pass that completes or panics has made every planned call before the first panic. It panics exactly when the plan holds a panic. A failed pass ends with the rejected call. |
| Sync.CreatesCalls | src/main.rs:39-61 | Every call of the create loop is a create request justified by one of its candidates. |
| Sync.DeletesCalls | src/main.rs:73-75 | The delete loop never panics. It deletes exactly the ids of the delete group. |
| Sync.EditsCalls | src/main.rs:86-130 | Every call of the edit loop edits an event of the edit group, with the request built from its first matching source event. |
| Sync.GroupsOrdered | src/main.rs:39-130 | Create, delete and edit calls taken in turn stay grouped in that order. |
| Sync.GroupsCalls | src/main.rs:39-130 | A call of the three loops is a call of one of them. |
| Sync.LogPlanned | src/main.rs:39-130 | Every logged call was planned. |
| Sync.PlanOrdered | src/main.rs:39-130 | The planned calls are every create, then every delete, then every edit. |
| Sync.PrefixOrdered | src/main.rs:39-130 | A prefix of a grouped call list is grouped. |
| Sync.SyncOrdered | src/main.rs:39-130 | The calls of a pass come as creates, then deletes, then edits, whatever the platform answers. |
| Sync.SyncJustified | src/main.rs:19-130 | A create comes from a source event whose uid matches no bot-owned key, and carries its future or re-anchored request. A delete names a bot-owned mirror event whose key matches no uid. An edit names a bot-owned mirror event whose key matches a uid, and carries the request built from the first match. |
| Sync.SyncForeignUntouched | src/main.rs:19-27 | With unique mirror ids, no call of a pass deletes or edits a mirror event the bot did not create. |
| Sync.CreatesComplete | src/main.rs:39-61 | Without a panic, the create loop issues the call of every candidate it does not drop. |
| Sync.EditsComplete | src/main.rs:86-130 | Without a panic, the edit loop issues the call of every event it does not skip. |
| Sync.CompletedLog | src/main.rs:12-133 | A completed pass planned no panic, and its log is every create call, then every delete, then every edit. |
| Sync.SyncCompletedCreates | src/main.rs:39-61 | A completed pass has issued a justified create for every create candidate that is in the future or recurs. |
| Sync.SyncCompletedDeletes | src/main.rs:73-75 | A completed pass has deleted every event of the delete group. |
| Sync.SyncCompletedEdits | src/main.rs:86-130 | A completed pass has sent a justified edit for every event of the edit group that differs from its first matching source event. |

## Left out

- The HTTP clients in `src/api/discord.rs` and `src/api/twitch.rs` are not part of this model. They are network I/O. Their results appear only as the two fetch results and the `accept` answers. A fetch error is modelled only as an outcome, without its message.
- The iCalendar and time-zone parsing in `src/api/twitch.rs`, `src/utils.rs` and `src/config.rs` are not part of this model. They are library date conversion and environment loading. The bot id is a parameter.
- The timer loop and logging of `main()` (`src/main.rs:136-148`) are not part of this model. They are async and timer plumbing.
- The bodies of `next_date`, `compare_events`, the recurrence rule and the conversion from a Twitch event to a create request are not part of this model. They are not in the visible source, so `nextDate` and `compare` are parameters and source entries arrive already converted. No weekday or time-of-day recurrence semantics is encoded.
- Payload.CreatePlan: `now` is one parameter, read once. The source reads the clock once per create candidate, so one pass could classify candidates against slightly different instants.
- Payload.Reanchored: the end time is computed on unbounded integers. The source's `checked_add(...).unwrap()` could panic on a timestamp overflow, which the model does not capture. The duration is treated as a signed difference.
- Payload.Rescheduled: the end time is computed on unbounded integers, for the same reason.
- Timestamps are whole seconds. Sub-second precision is not modelled.
- The pass is not proved idempotent. A second pass sends nothing only if `compare` and the conversion agree with the requests sent, and both are abstract.
- Modelling a `?` error as a normal outcome leaves out the error value's contents beyond the rejected call.
