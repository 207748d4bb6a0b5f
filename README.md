# APEX Mission Board — a Dafny model of its board handlers

The APEX Mission Board keeps one JSON record, `board-state`, in a Cloudflare KV namespace.
The record holds:

- a task list (`taskList`);
- a completion set (`tasks`): a key is the id of a completed task, and its value is that task's completion time;
- the archive of past weeks (`history`);
- the identity of the current week (`weekId`, `weekLabel`);
- the timestamps `created` and `lastUpdated`.

Every handler follows the same loop. It reads the record and parses it into a fresh object. It changes that object in place. Then it writes the object back.

This project models:

- the task handlers of `functions/api/tasks.js`:
  - PUT toggles a completion;
  - POST appends a task, numbered after the largest id;
  - DELETE removes a task and its completion key;
- the week rollover of `functions/api/week.js`:
  - it scores the week and ranks it;
  - it archives the completed tasks;
  - it carries the uncompleted tasks (or a supplied list) into a new week, renumbered 1 to N;
  - it clears the completion set;
- the one-time seed of `functions/api/migrate.js`:
  - it refuses with 409 while the board has tasks;
  - otherwise it writes 23 fixed tasks and a five-tier table.

Layout:

- `options.dfy` and `lists.dfy`: `Option` and the `filter` used on task lists, with its partition and order properties.
- `calendar.dfy`: UTC day arithmetic.
  - The weekday of a day, and the Monday of its week.
  - A civil-from-days conversion and the `YYYY-MM-DD` rendering of `toISOString`, with both round trips proved.
- `week_identity.dfy`: `getWeekId` and `getWeekRange`. The repository defines them twice, identically: `functions/api/week.js:28-45` and `functions/api/migrate.js:12-29`.
- `board_state.dfy`: the record (`Document`), the parsed object (`Board`, a class whose fields the handlers assign), the store (`Kv`, one key), and the response datatype.
- `tasks.dfy`, `ranks.dfy`, `week.dfy`, `migrate.dfy`: the three handler files. Each handler is a method that `modifies` the store. Its postcondition gives the new record as a function of the old one, together with the response.
- `invariants.dfy`: a board invariant: ids are unique and no completion key is stray.
  - The seed and every rollover establish it.
  - Add and remove keep it.
  - A toggle keeps it exactly when the toggled id belongs to a task.
  - Under the invariant, a week scores at most 100 percent.

How source values map into the model:

- **Time.** An instant is an integer number of milliseconds since the epoch. Days are floored, so instants before 1970 land on the right day.
- **Week label.** The label is the pair of UTC day numbers (Monday, Sunday) it is rendered from. `Unlabelled` stands for the empty label.
- **Ids and text.** Task ids are integers. A falsy id is 0, and falsy text is the empty string.
- **Fields a record may lack.** `detail`, `xp` and `tier` in a request are `Option`s, as are `history`, `tiers`, `created` and `lastUpdated` in the record.
- **The clock.** It is passed in as `now`.

## Model

| member | source | states |
|---|---|---|
| Calendar.DayOf | functions/api/week.js:29-30 | the UTC day of an instant is the floor of its millisecond count over one day, before 1970 as well |
| Calendar.Weekday | functions/api/week.js:30 | `getUTCDay` lies in 0..6, with 0 for Sunday |
| Calendar.MondayOf | functions/api/week.js:39-43 | stepping back 6 days on a Sunday and weekday − 1 days otherwise lands on a Monday that is 0 to 6 days at or before the day |
| Calendar.MondayUnique | functions/api/week.js:39-43 | that Monday is the only Monday 0 to 6 days at or before the day |
| Calendar.SameWeek | functions/api/week.js:28-34 | every day from a Monday to the Sunday after it has that Monday as its week start |
| Calendar.FindYear | functions/api/week.js:44 | the year found for a day number contains that day |
| Calendar.FindMonth | functions/api/week.js:44 | the month found for a day of the year contains that day |
| Calendar.CivilFromDays | functions/api/week.js:44 | the calendar date of a day number is a valid Gregorian date whose day number is that day |
| Calendar.CivilOfDaysFromCivil | functions/api/week.js:44 | converting a valid date to its day number and back gives the date |
| Calendar.YearOfValidDay | functions/api/week.js:44 | every day a JavaScript `Date` reaches falls in a year of at most six digits |
| Calendar.PadDigits | functions/api/week.js:44 | a zero-padded field has exactly its width and only digits |
| Calendar.DigitsRoundTrip | functions/api/week.js:44 | reading back a padded number that fits its width gives the number |
| Calendar.IsoDate | functions/api/week.js:44 | the date part of `toISOString`; its contract is stated by `IsoDateRoundTrip` |
| Calendar.IsoDateRoundTrip | functions/api/week.js:44 | the `YYYY-MM-DD` (or `±YYYYYY-MM-DD`) text of a date reads back as that date |
| WeekIdentity.WeekRange | functions/api/week.js:28-37 | the label's two days are a Monday and the Sunday six days later, and they enclose the day of `now` |
| WeekIdentity.WeekId | functions/api/week.js:39-45 | `getWeekId`: the ISO date of the Monday of the UTC week holding `now`; its contract is stated by `WeekIdNamesMonday` and `SameWeekSameId` |
| WeekIdentity.WeekIdNamesMonday | functions/api/week.js:39-45 | whenever the stepped-back Monday is still an instant a `Date` can hold, the week id parses as the ISO date of a Monday, 0 to 6 days at or before `now`, and is the label's Monday |
| WeekIdentity.FirstWeekOutOfRange | functions/api/week.js:42-44 | the earliest `Date` instant is a Tuesday, so for its first six days the Monday stepped back to lies before the range, where `toISOString` throws |
| WeekIdentity.SameWeekSameId | functions/api/week.js:39-45 | two instants of the same Monday-to-Sunday week get the same week id and the same label |
| BoardState.Board.FromDocument | functions/api/tasks.js:16 | the parsed object holds exactly the record's fields |
| BoardState.Board.StartWeek | functions/api/week.js:102-108 | the new week's field assignments: version 2.0, the new id and label, `lastUpdated`, no completions, the new list; `created`, `history` and `tiers` keep their values |
| BoardState.Board.ToDocument | functions/api/tasks.js:21 | `JSON.stringify` of the board: the record with its nine fields; `FromDocument` states that parsing and writing back give the same record |
| BoardState.Kv.Get | functions/api/tasks.js:14 | reading the key returns the stored record, or nothing for a missing key |
| BoardState.Kv.Put | functions/api/tasks.js:21 | writing the key stores the record |
| BoardState.Ids | functions/api/tasks.js:90 | the id list has one entry per task, in the same order |
| TaskHandlers.GetBoard | functions/api/tasks.js:13-17 | `null` exactly when the key is missing; otherwise a fresh object equal to the stored record |
| TaskHandlers.SaveBoard | functions/api/tasks.js:19-23 | stamps `lastUpdated` with `now`, changes nothing else, and stores the stamped board |
| TaskHandlers.Flip | functions/api/tasks.js:49-54 | the toggled id changes membership, and a new entry holds `now`; every other key and its entry stay as they were |
| TaskHandlers.FlipTwice | functions/api/tasks.js:49-54 | toggling the same id twice restores the set of completed ids; the map itself comes back when the id started incomplete |
| TaskHandlers.Toggle | functions/api/tasks.js:30-67 | id 0 gets 400 and a missing board 404, both with no write; otherwise only the completion set and `lastUpdated` change, and the reply's `completed` is the id's membership after the flip |
| TaskHandlers.ToggleTwice | functions/api/tasks.js:49-57 | two toggles of one id leave the same ids completed and every other field as before, except `lastUpdated`; the two replies report opposite states |
| TaskHandlers.Max | functions/api/tasks.js:91 | `Math.max` of a non-empty list bounds every element and is one of them |
| TaskHandlers.NextId | functions/api/tasks.js:89-91 | the new id is above every existing id: 1 for an empty list, otherwise the largest id plus one |
| TaskHandlers.NewTask | functions/api/tasks.js:93-99 | defaults: a falsy `detail` becomes "", a missing or zero `xp` becomes 10, and only a missing `tier` becomes 0; an explicit tier 0 is kept |
| TaskHandlers.AddKeepsIdsUnique | functions/api/tasks.js:89-101 | appending under the next id keeps the ids unique |
| TaskHandlers.Add | functions/api/tasks.js:70-114 | empty text gets 400 and a missing board 404, both with no write; otherwise exactly one task is appended at the end, the completion set is untouched, and the reply is 201 with that task |
| TaskHandlers.WithoutId | functions/api/tasks.js:136-137 | filtering drops every task with the id, keeps every other task with its multiplicity, and keeps their order |
| TaskHandlers.RemoveAbsentIsNoop | functions/api/tasks.js:137 | removing an id that no task has leaves the list unchanged |
| TaskHandlers.KeepKeepsIdsUnique | functions/api/tasks.js:137 | filtering a list with unique ids keeps them unique |
| TaskHandlers.RemoveKeepsIdsUnique | functions/api/tasks.js:137 | removal keeps the ids unique |
| TaskHandlers.Remove | functions/api/tasks.js:117-150 | id 0 gets 400 and a missing board 404, both with no write; otherwise the tasks with the id and its completion key are removed, also when the id is absent, and the reply is 200 |
| Lists.Keep | functions/api/week.js:82 | `filter`: never longer than its input; its contract is stated by `KeepCounts`, `KeepMembers`, `KeepIsSubsequence`, `KeepAll` and `KeepPartition` |
| Lists.KeepCounts | functions/api/week.js:82 | `filter` keeps each element satisfying the predicate exactly as often as it occurs, and no other element |
| Lists.KeepMembers | functions/api/week.js:82 | an element survives `filter` exactly when it was present and satisfies the predicate |
| Lists.KeepIsSubsequence | functions/api/week.js:90 | `filter` keeps the surviving elements in their original order |
| Lists.KeepAll | functions/api/tasks.js:137 | filtering with a predicate that already holds for every element changes nothing |
| Lists.KeepPartition | functions/api/week.js:82-90 | filtering by a predicate and by its negation splits the list: the multisets add up, the lengths add up, and each element lands on exactly one side |
| Ranks.ThresholdsAscend | functions/api/week.js:11-18 | thresholds start at 0 and strictly increase along the table |
| Ranks.LastAtMost | functions/api/week.js:22-24 | the scan's position after k steps is the last reached threshold among the first k + 1 |
| Ranks.RankOf | functions/api/week.js:20-26 | the rank is a table entry whose threshold is the largest at most `percent`, and the first entry when none is reached |
| Ranks.RankForPercent | functions/api/week.js:20-26 | the ascending scan that keeps overwriting `r` returns that rank |
| Ranks.RankOfBand | functions/api/week.js:11-26 | a percentage from one threshold up to below the next gets that threshold's rank |
| Ranks.RankMonotone | functions/api/week.js:20-26 | a higher percentage never gets a lower rank |
| Ranks.RankExamples | functions/api/week.js:11-26 | 0 and 19 rank Ronin, 20 Samurai, 50 Shogun, 99 Apex Warrior, and 100 and above Apex Legend |
| WeekRollover.Percent | functions/api/week.js:68-69 | 0 for an empty list; otherwise `100 × done / total` rounded to the nearest integer, with halves rounded up |
| WeekRollover.PercentBounds | functions/api/week.js:68-69 | with no more keys than tasks the percentage is at most 100, and exactly 100 when they are equal |
| WeekRollover.PercentMonotone | functions/api/week.js:68-69 | more completion keys never lower the percentage |
| WeekRollover.Completed | functions/api/week.js:82 | the tasks whose id has a completion key; its contract is stated by `RolloverPartition` |
| WeekRollover.Uncompleted | functions/api/week.js:90 | the tasks whose id has no completion key; its contract is stated by `RolloverPartition` |
| WeekRollover.RolloverPartition | functions/api/week.js:82-90 | the completed and uncompleted tasks partition the list: their multisets and lengths add up, each task is on the side its key decides, and both keep the order |
| WeekRollover.Renumber | functions/api/week.js:96-99 | the renumbered list has the same length, ids 1..N in order, and every other field of each task unchanged |
| WeekRollover.RenumberedIds | functions/api/week.js:96-99 | renumbered ids are unique, and the next added task gets N + 1 |
| WeekRollover.RenumberIdempotent | functions/api/week.js:96-99 | renumbering a renumbered list changes nothing |
| WeekRollover.ArchiveOf | functions/api/week.js:73-84 | the archive entry of a week; its contract is stated by `ArchiveScore`, `RolloverExample`, `ConsistentScore` and the `Rollover` postcondition |
| WeekRollover.ArchiveScore | functions/api/week.js:66-84 | an empty week archives 0 percent, rank Ronin; with no more keys than tasks, at most 100 |
| WeekRollover.PartitionCons | functions/api/week.js:82-90 | the first task goes to the side its key decides, in front |
| WeekRollover.RolloverExample | functions/api/week.js:63-99 | four tasks, the first and third completed: 50 percent, rank Shogun, those two archived, and the other two carried forward as tasks 1 and 2 |
| WeekRollover.Rollover | functions/api/week.js:51-127 | a missing board gets 404 with no write; otherwise one archive entry (the week's score, rank and completed tasks) is appended to the history (a missing history counts as empty), the new week is version 2.0 with the id and label of `now`, no completions and the renumbered supplied-or-carried list, and the reply reports the entry, the new list's length and the carried count |
| Migrate.SeedIds | functions/api/migrate.js:32-56 | 23 seed tasks numbered 1..23 in order, already as a rollover numbers them; the ids are unique and the next id is 24 |
| Migrate.SeedTiers | functions/api/migrate.js:32-65 | the five tiers sit at their own indices; every seed task names one of them, and tiers never decrease along the list |
| Migrate.FreshBoard | functions/api/migrate.js:86-97 | the seeded record: version 2.0, the week of `now`, `created` equal to `lastUpdated` equal to `now`, no completions, an empty history, the seed tasks and the tiers |
| Migrate.MaySeed | functions/api/migrate.js:76-78 | the seed guard: no record, or a record with an empty task list; its contract is stated by `Seed` and `SeedTwice` |
| Migrate.Seed | functions/api/migrate.js:71-106 | a stored board with tasks gets 409 with its task count and no write; a missing board, or one with no tasks, is replaced by the fresh board, with 201 and the count 23 |
| Migrate.SeedTwice | functions/api/migrate.js:75-83 | a second seed right after a first gets 409 and leaves the store as the first seed left it |
| BoardInvariants.DrawnSetBound | functions/api/week.js:67-68 | a set of keys drawn from a list of ids has at most as many elements as the list |
| BoardInvariants.ConsistentScore | functions/api/week.js:66-69 | on a board whose completion keys all name tasks, a week scores at most 100 percent |
| BoardInvariants.StrayKeysInflateScore | functions/api/week.js:67-69 | `done` counts every key, stray ones too: one task with two keys scores 200 and ranks Apex Legend |
| BoardInvariants.ToggleConsistent | functions/api/tasks.js:49-54 | toggling an id keeps the invariant when the id belongs to a task, and breaks it otherwise |
| BoardInvariants.AddConsistent | functions/api/tasks.js:89-101 | an add keeps the invariant |
| BoardInvariants.RemoveConsistent | functions/api/tasks.js:136-138 | a remove keeps the invariant |
| BoardInvariants.RolloverConsistent | functions/api/week.js:90-108 | a rollover establishes the invariant from any board, also with a supplied task list |
| BoardInvariants.FreshBoardConsistent | functions/api/migrate.js:86-97 | a freshly seeded board satisfies the invariant |

## Left out

- `functions/api/board.js` (GET and PUT of the whole record): this is storage plumbing. Its default record for a missing key corresponds to `Kv.stored == None` here.
- CORS headers and the OPTIONS handlers: these are response decoration with no logic.
- Parsing and serialisation, and the `catch` → 500 path: `JSON.parse` errors, a stored `null`, and bodies of the wrong shape are left out. The model starts from a parsed request and a well-typed record.
- KV as a real service: a failing `get` or `put`, and latency. The store is one field.
- The last-writer-wins race between concurrent read-modify-write requests: the model is sequential.
- The text of `weekLabel`: `toLocaleDateString` depends on locale data. The label keeps the Monday and Sunday it is rendered from.
- Toggle: the completion value `{ completedAt }` is modelled as the timestamp itself.
- Rollover: one `now` serves both `archivedAt` and the new week's clock read. The source reads the clock twice, so the two can differ by the handler's running time.
- Toggle: one `now` also serves both clock reads of the toggle, the entry's `completedAt` and `lastUpdated`.
- Percent: `Math.round` over the floating-point `done / total * 100` is modelled as exact rounding with halves up. Floating-point error at exact halves is not modelled.
- Toggle: ids are integers. The source keys the completion set by `String(id)`, so an id sent as `"01"` falls outside the model.
- Remove: ids are integers. The source filters by `Number(id)` and deletes the key `String(id)`, so an id sent as `"01"` falls outside the model.
- JavaScript truthiness is modelled only as id ≠ 0 and text ≠ "". Values such as `NaN`, `false` or `null` in a request are not modelled. A `tier: null` would be kept by the source and is not representable here.
- A stored record without `taskList` or `tasks`: here both fields are always present. The source behaves differently per handler:
  - Toggle reads only `tasks`, so it throws (500) without `tasks`, and succeeds without `taskList`.
  - Add reads only `taskList`, so it throws without `taskList`, and succeeds without `tasks`.
  - Remove and Rollover read both, so they throw when either is missing.
  - Seed treats a missing `taskList` as empty (`parsed.taskList && …`, migrate.js:78), so it seeds and returns 201. That path is not modelled.
- WeekIdentity.WeekId: `toISOString` throws (500) when the stepped-back Monday lies outside ±8.64e15 ms. This happens in the first six days of the range, which `FirstWeekOutOfRange` shows, and beyond the range. `WeekIdNamesMonday` states its guarantee only where the Monday is in range. Outside it, the model still returns a date where the source throws.
- Completion is decided two ways in the source: by the truthiness of an entry (tasks.js:50,57, week.js:82,90), and by counting keys (week.js:67-68). The model uses key presence for both. The two agree on every record the modelled handlers write, because every entry they write is a truthy object. A falsy entry written wholesale through `board.js` would make `done` differ from `completedTasks`, and that case is not modelled.
- NextId: ids are unbounded integers. `Math.max(...existingIds) + 1` is exact only up to 2^53, and the spread throws RangeError on very long lists. Neither limit is modelled.
- The seed message `"Board seeded with " + SEED_TASKS.length + " tasks"` is the constant text for 23 tasks. `SeedIds` proves that the length is 23.

Behaviour the model follows from the code:

- `body.tasks` replaces the carried list whenever it is present, even when it is empty, because `[]` is truthy in JavaScript.
- `carriedForward` is reported even when supplied tasks replaced the carried ones.
