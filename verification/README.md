# Lottery store of the chat-bot lottery plugin, in Dafny

The lottery plugin lets users of a chat scene (a group or a private chat) create a
timed drawing identified by a keyword, join it, list and delete drawings, and have a
winner drawn when it ends. All of its state is one document: a map from scene id to
the scene's drawings, in creation order. Each command handler loads the whole
document, validates the command, changes its copy in memory and writes the copy back.
Every rejection replies before that write, so a rejected command leaves the store as
it was.

This project models that store and the transitions the handlers apply to it:

- `models.dfy` (module `Models`): the drawing record, the `Store` type
  (`map<SceneId, seq<Lottery>>`) and `SceneList`.
- `seqs.dfy` (module `Seqs`): Python's substring test, list comprehension with a
  condition (`Filter`) and `list.remove` (`RemoveFirst`), with the lemmas the
  handlers' proofs need.
- `lottery.dfy` (module `LotteryPlugin`): the handlers `new`, `join`, `delete` and
  `list`, the scheduled draw, and the store invariant `Valid` that every handler keeps.
  Each scene's drawings are tagged with that scene, each drawing carries its cap, and
  no two drawings in a scene share a keyword.
- `as_written.dfy` (module `AsWritten`): three defects of the handlers as written,
  next to the intended behaviour (see "## Findings").

The handlers that loop and change the loaded document in place (`new`, `join`,
`delete`) are methods with loops. Each takes the loaded store and returns the reply
and the store that is written back. A rejected command returns its input store. The
draw and the listing only filter or map, so they are functions.

What the model takes as parameters:
- The current time (`now`) and the default end of the current day (`endOfToday`).
- The fresh drawing id (`newId`), which stands in for the random UUID.
- The random choice of the winner (`pick`). The winner is the participant at
  position `pick` modulo their number.
- The superuser set (`superusers`).

Times are instants as integers. The `--start`/`--end` text is either not given, not a
valid time (`Malformed`) or an instant.

The record model (`models.py:4-14`) has no field for the participant cap, and `join`
never compares the number of participants with a cap. The model keeps the cap on each
record (see "## Findings") and, like the code, does not enforce it on `join`.

The permission test at `lottery.py:171-176` compares the member id, a string, with the
integer 1. That comparison never makes the test fail. So `MayCreate` says: in a private
chat (no member) anyone may create a drawing, and in a group only a superuser may.
`MayDelete` is the test of `lottery.py:350-352`: the caller may delete a drawing they
created, and a superuser may delete any drawing.

The drawings a keyword selects are described in two ways. `join` appends to the
selected entries, which alias the scene list's entries, so `MatchingIndices` gives their
positions in that list. `delete` removes the selected entries by value, so
`Filter(lotteries, Matching(kw))` gives the entries themselves, in the same order.

## Model

| member | source | states |
|---|---|---|
| `LotteryPlugin.HandleNew` | src/plugins/lottery/lottery.py:149-241 | `new` is refused, in this order: in a group unless the caller is a superuser; without a keyword; on a time that does not parse, a start before now, or an end not after the start; when a drawing in the scene has exactly that keyword. It succeeds exactly when none of these applies. A refused command leaves the store unchanged. On success, exactly one record is appended at the end of the scene's list (the list is created if the scene had none). That record has no participants, one winner and the given cap. All other scenes are untouched, and the store invariant is kept. |
| `LotteryPlugin.TimeChecks` | src/plugins/lottery/lottery.py:183-196 | Both times are parsed before either is checked, and either one failing to parse is a format error. The times are accepted exactly when start ≥ now and start < end. Otherwise the reply says which check failed. |
| `LotteryPlugin.MatchingIndices` | src/plugins/lottery/lottery.py:265-268 | The selected positions are increasing. They are exactly the drawings whose keyword contains the given keyword. |
| `LotteryPlugin.HandleJoin` | src/plugins/lottery/lottery.py:244-288 | `join` is refused when the scene has no entry, or when no drawing's keyword contains the given keyword. It is also refused when the caller already takes part in any selected drawing. These are its only refusals, so it succeeds in every other case. A refused join leaves the store unchanged. Otherwise the scene becomes `JoinAll`: the caller is appended to every selected drawing, the other drawings are unchanged, and the invariant is kept. |
| `LotteryPlugin.AppendToSelected` | src/plugins/lottery/lottery.py:270-277 | The join loop succeeds exactly when the caller takes part in none of the selected drawings. On success the scene list becomes `JoinAll`. |
| `LotteryPlugin.JoinKeepsSceneValid` | src/plugins/lottery/lottery.py:277-281 | Joining changes no keyword, scene tag or cap, so a valid scene stays valid. |
| `LotteryPlugin.JoinAddsCallerOnce` | src/plugins/lottery/lottery.py:270-277 | After a join, each selected drawing that did not hold the caller holds its old participants followed by the caller, and holds the caller exactly once. Each drawing not selected is identical to before. No field other than the participants changes. |
| `LotteryPlugin.HandleDelete` | src/plugins/lottery/lottery.py:325-379 | `delete` is refused for an absent or empty scene and when nothing matches. It is also refused when the caller is neither the creator nor a superuser for some matching drawing; nothing is written then. These are its only refusals. Otherwise the scene keeps exactly its non-matching drawings, in order, and the invariant is kept. |
| `LotteryPlugin.RemoveSelected` | src/plugins/lottery/lottery.py:349-368 | The delete loop succeeds exactly when the caller may delete every selected drawing. On success the scene keeps exactly its non-selected drawings, in order. |
| `Seqs.RemovingMatchesLeavesRest` | src/plugins/lottery/lottery.py:350-368 | Removing the matching drawings one by one with `list.remove`, in their list order, never removes an absent element. It leaves exactly the non-matching drawings in their order. |
| `Seqs.RemoveFirst` | src/plugins/lottery/lottery.py:368 | `list.remove` needs the element to be present and shortens the list by one. |
| `Seqs.ContainsAt` | src/plugins/lottery/lottery.py:267 | The recursive substring test holds exactly when the keyword starts at some position of the drawing's keyword, which is what Python's `in` on strings means. |
| `LotteryPlugin.FirstWithId` | src/plugins/lottery/lottery.py:85-87 | The lookup finds the first drawing with the id, or reports that no drawing has it. |
| `LotteryPlugin.ExecuteDraw` | src/plugins/lottery/lottery.py:61-104 | The draw changes nothing when the scene has no entry, no drawing has the id, or the first drawing with the id has no participants. Otherwise the winner is one of that drawing's participants, and the scene's list becomes the old list without the records carrying that id. Other scenes are unchanged. |
| `LotteryPlugin.EveryParticipantCanWin` | src/plugins/lottery/lottery.py:97 | Every participant of the drawn drawing is the winner for some choice, so the `pick` parameter covers every outcome of the random choice. |
| `LotteryPlugin.DrawKeepsOthersInOrder` | src/plugins/lottery/lottery.py:101-104 | After a draw, two remaining drawings keep their relative order. |
| `Seqs.FilterKeepsOrder` | src/plugins/lottery/lottery.py:102-104 | A filtering comprehension keeps the relative order of the elements it keeps. |
| `Seqs.Filter` | src/plugins/lottery/lottery.py:345-347 | A filtering comprehension holds exactly the elements that satisfy the condition, and is no longer than its input. |
| `LotteryPlugin.DrawKeepsValid` | src/plugins/lottery/lottery.py:101-104 | The draw keeps the store invariant. |
| `LotteryPlugin.FilterKeepsSceneValid` | src/plugins/lottery/lottery.py:102-104 | Dropping drawings from a scene keeps its drawings tagged, capped and with distinct keywords. |
| `LotteryPlugin.EmptyStoreValid` | src/plugins/lottery/lottery.py:72-73 | The empty store, used when no file exists yet, satisfies the invariant. |
| `LotteryPlugin.HandleList` | src/plugins/lottery/lottery.py:292-321 | `list` is refused, for no other reason, exactly when the scene has no drawings. It crashes exactly when some drawing lacks a cap. Otherwise it gives one line per drawing, in order, with the keyword, start, end, participant count and cap. A valid store never crashes it. |
| `AsWritten.CapLostAsWritten` | src/plugins/lottery/lottery.py:214-224 | As written, the record stored by `new` does not depend on `--number`, and listing the scene afterwards raises AttributeError. |
| `AsWritten.ListShowsCapAfterCreate` | src/plugins/lottery/lottery.py:315-319 | With the cap stored, listing after a creation succeeds, and the new drawing's line shows 0 participants and the requested cap. |
| `AsWritten.DeleteNeverDeletesAsWritten` | src/plugins/lottery/lottery.py:341-347 | As written, `delete` crashes on every scene with drawings, even for the creator of the matching drawing. |
| `AsWritten.OmittedStartRejectedAsWritten` | src/plugins/lottery/lottery.py:154-165 | As written, the default start is the moment the handler was defined. So once time has passed, omitting `--start` is always refused with "start time must be in the future". |
| `AsWritten.OmittedStartAccepted` | src/plugins/lottery/lottery.py:190-194 | With the default start taken at the time of the command, and compared with the current time at the same granularity, omitting `--start` is accepted whenever the end lies ahead. |
| `AsWritten.SameSecondStartRejected` | src/plugins/lottery/lottery.py:154-156 | A default start formatted to whole seconds, compared with a current time that has sub-second precision, is refused as being in the past unless the command arrives exactly on a second. |

## Findings

| source | as written | input that shows it | evidently intended | confidence | as-written member | corrected member |
|---|---|---|---|---|---|---|
| src/plugins/lottery/lottery.py:219 | `new` passes the cap as `participants_limits`. The record model (models.py:4-14) declares no such field, so the cap is dropped. The listing at line 317 then reads the missing attribute. | `lottery new --number 5 cake`, then `lottery list` in the same scene | the record stores the cap and the listing shows it | not executed; high | `AsWritten.CapLostAsWritten` | `AsWritten.ListShowsCapAfterCreate` |
| src/plugins/lottery/lottery.py:341-352 | `delete` reads `.keyword` and `.creator` off the stored entries. Those entries are the raw JSON objects loaded from the file, not records, so every delete in a non-empty scene raises AttributeError. | The creator runs `lottery delete cake` in a scene holding their drawing `cake`. | select the matching drawings, check authorisation, remove them | not executed; high | `AsWritten.DeleteNeverDeletesAsWritten` | `LotteryPlugin.HandleDelete` |
| src/plugins/lottery/lottery.py:154-165 | The default `--start` and `--end` texts are computed once, as parameter defaults, when the handler is defined. | `lottery new cake` without `--start`, at any time after the plugin was loaded | the defaults are "now" and the end of the current day, taken when the command runs; since the default text keeps whole seconds (lines 156 and 184) and line 190 compares it with a current time that has microseconds, the comparison must also be made at whole seconds | not executed; high | `AsWritten.OmittedStartRejectedAsWritten` | `AsWritten.OmittedStartAccepted` |

The handlers in `LotteryPlugin` use the corrected behaviour:
- `HandleNew` stores the cap (`NewRecord`) and defaults the start to `now`.
- `HandleDelete` reads each stored entry as a record.

## Left out

- Reading and writing the JSON file. The store is passed in and the store to write is returned.
- Scheduling: registering the draw with the scheduler on creation, and removing jobs on deletion. The created record carries the id and end time that the job is registered with.
- `HandleDelete`: does not model that jobs of earlier matching drawings are already removed from the scheduler when a later match refuses the caller.
- Sending messages, looking up the bot, and command parsing. Replies are modelled as a `Reply` value without their texts.
- Logging.
- `ExecuteDraw`: the uniform distribution of the random choice. The choice is the `pick` parameter.
- The random UUID. It is the `newId` parameter.
- Time parsing, formatting and the time zone. Times are integer instants at one granularity. The handlers compare at one granularity; `SameSecondStartRejected` shows what the sub-second precision of the current time does to a default kept in whole seconds.
- The race between the scheduled draw and commands in flight over the shared file.
- `HandleJoin`: the participant cap is not enforced, as in the code. `number_of_winners` is always 1 and only one winner is drawn.
- `AppendToSelected`: the loop over the matching drawings is modelled as a loop over the scene's positions that skips drawings not selected. The matching list aliases the scene's entries, so both visit the same drawings in the same order.
- Converting stored objects to records and back (`model_validate`, `model_dump`). It is taken to be the identity, and validation failures are not modelled.
