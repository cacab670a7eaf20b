# Governance reminder bot, modelled in Dafny

The model covers the core of `governance-bot.py`, a Telegram bot that reminds subscribed chats to vote on DAO governance proposals.

Proposals reach the bot from two feeds:

- a Snapshot space, polled and de-duplicated against the set of known proposals;
- an on-chain governor contract, whose events carry the proposal id and the voting end block.

For every new proposal the bot does three things:

1. It gives the proposal an eight-character short id.
2. It writes a `None` entry for every registered chat that has no entry for the proposal yet.
3. It schedules that chat's reminders with the job queue. The reminders fall a configured number of hours after the start and before the end. Instants already in the past are skipped.

Each reminder carries inline buttons whose payloads are `voted|<short id>` and `remind_in|<short id>|<hours>`.

- Pressing "voted" records the vote and cancels every job of that chat and proposal.
- Pressing "remind in" records the next instant and adds one job at that instant.

## Modules

| file | module | what it models |
|---|---|---|
| `text.dfy` | `Text` | `str.split` on one character, its inverse `join`, and `str.strip` with Python's whitespace set |
| `numerals.dfy` | `Numerals` | `str()` of integers and the integral subset of `float()` |
| `config.dfy` | `Config` | `parse_intervals` and the base-URL normalisation |
| `callbacks.dfy` | `Callbacks` | `create_inline_buttons` and how `button_callback` splits a payload |
| `shortids.dfy` | `ShortIds` | `proposal_id_map` as its insertion-ordered list of entries, the short-id step, and the reversed lookup (the last entry wins) |
| `scheduler.dfy` | `Scheduler` | the firing instants of `schedule_reminders` as pure functions, and the class `JobTable` |
| `preferences.dfy` | `Preferences` | `preferences["reminders"]`, `get_reminder_intervals`, and the entry writes of the handlers |
| `sources.dfy` | `Sources` | the Snapshot de-duplication in processing order, and the on-chain end-time estimate |
| `bot.dfy` | `Bot` | the class `Bot`, described below |

The class `JobTable` models two structures together:

- `SCHEDULED_JOBS`, as a map from (chat, proposal) to a list of handles;
- the job queue those handles point into, with each job's `removed` flag.

Sharing handles this way captures the aliasing in the source. Cancelling marks jobs in the queue and then deletes the table entry. `schedule_reminders` replaces a pair's list without cancelling what the old list held.

The class `Bot` holds the three persisted records and the job table. Its methods are `Start`, `ButtonCallback`, `HandleNewProposal` and the two poll loops. `Bot.Valid` is the invariant every handler keeps:

- every job that will still fire is listed under its own pair;
- every listed pair has a preferences entry;
- no proposal has two short ids.

Because of this invariant, the overwrite in `schedule_reminders` never orphans a live job in any state the handlers can reach.

Units and clock:

- Offsets are whole hours. Instants are whole seconds, and `HOUR` is 3600.
- The clock is a parameter: one reading `now` per call or poll pass, and `readAt` for the on-chain events of a pass. The source reads it more often; "## Left out" says where.
- The uuid drawn for a short id is a parameter `token`.

In these places the model follows the code as written:

- An instant is dropped only when it is strictly before `now` (`if when < now`, governance-bot.py:394 and 418), not when it equals `now`.
- "remind in" adds a job beside the pair's existing jobs; it does not replace them. `RecordSnooze` states this: the live jobs after the press are the old ones plus the new one.
- Two offsets that give the same instant produce two jobs. `FiringTimesExact` counts instants with multiplicity.
- Nothing is rescheduled on start-up. The job table starts empty (`Bot.Bot.constructor`).
- An on-chain proposal starts at the clock reading `readAt` (governance-bot.py:321), taken before `schedule_reminders` reads its own `now` (governance-bot.py:372). Once the clock has moved on, the from-start offset 0 falls before `now` and is dropped. `Scheduler.EarlyStartDropsOffset` states this for any offset whose instant falls before `now`.

`handle_new_proposal` reads each chat's offsets through `get_reminder_intervals`. That function loads the preferences file, which is saved only after the loop. A chat that had no entry therefore has none in the file either, and always gets the configured defaults. `HandleNewProposal` states this: every new pair is listed with exactly the jobs at `FiringTimes(start, end, now, defaults)`, for one clock reading `now` (see "## Left out").

## Model

| member | source | states |
|---|---|---|
| Text.Split | governance-bot.py:82-83 | `split` yields at least one piece, no piece holds the separator, and joining the pieces gives the text back |
| Text.SplitJoin | governance-bot.py:82-83 | splitting inverts joining on pieces free of the separator |
| Text.Strip | governance-bot.py:83 | the result has no whitespace at either edge, and it is empty exactly when the text is all whitespace |
| Text.StripPadded | governance-bot.py:83 | stripping whitespace-padded trimmed text gives that text back |
| Numerals.NatToStringInjective | governance-bot.py:324 | distinct on-chain proposal numbers give distinct `str()` keys |
| Numerals.IntToStringRoundTrip | governance-bot.py:83 | the numeric reading of `str(i)` is `i` for every integer |
| Config.ParseIntervals | governance-bot.py:81-83 | the list fails exactly when some comma field before the first `#` is not a number, and otherwise holds at most one offset per field |
| Config.ReadField | governance-bot.py:83 | a field is skipped exactly when it is blank after stripping |
| Config.ReadPadded | governance-bot.py:83 | a numeral with whitespace on either side reads as its number |
| Config.ReadAllNumbers | governance-bot.py:83 | fields that each read as a number give exactly those numbers, in order |
| Config.PaddedRoundTrip | governance-bot.py:81-83 | every non-empty offset list is read back, in order, from a comma-separated rendering with any whitespace around each numeral |
| Config.CommaSpaceSetting | governance-bot.py:81-83 | the setting `0, 24` gives the offsets 0 and 24 |
| Config.ParseIntervalsRoundTrip | governance-bot.py:81-83 | every offset list is read back from its comma-separated rendering, in order |
| Config.ParseIntervalsIgnoresComment | governance-bot.py:82 | text after the first `#` does not change the offsets read |
| Config.BlankFieldIgnored | governance-bot.py:83 | a blank field anywhere in the list contributes no offset and changes nothing else |
| Config.NonNumberRejected | governance-bot.py:83 | one field that is not a number fails the whole list wherever it stands |
| Config.NormalizeBaseUrl | governance-bot.py:62-65 | the prefix is the stripped URL, then one `/` only when it does not already end in one, then `proposals/` |
| Config.WithProposalsPath | governance-bot.py:62-65 | the link prefix ends in `/proposals/` and is the URL plus, only where missing, one `/` |
| Config.TrailingSlashIrrelevant | governance-bot.py:62-65 | a configured URL with or without a trailing `/` gives the same link prefix |
| Callbacks.CreateInlineButtons | governance-bot.py:357-365 | there is one "voted" row first, then one "remind in" row per configured hour value, in order, each carrying the short id |
| Callbacks.Decode | governance-bot.py:162-164 | a payload with fewer than two bar-separated fields is malformed; otherwise the short id is the second field, the first field picks "voted", "remind_in" or an unknown action, and "remind_in" has hours exactly when a third field holds a number |
| Callbacks.ButtonsDecode | governance-bot.py:162-164 | every generated payload splits back into the action, short id and hours it was built from |
| ShortIds.ShortIdOf | governance-bot.py:335-343 | the lookup finds nothing exactly when no entry has the proposal, and otherwise finds an entry's short id |
| ShortIds.Resolve | governance-bot.py:168-175 | the reversed lookup finds nothing exactly when no entry carries the short id, and otherwise gives the proposal of the last entry carrying it |
| ShortIds.AssignShortId | governance-bot.py:335-343 | an unmapped proposal gets the token, a mapped one keeps its short id, no other lookup changes, and entries are only appended |
| ShortIds.ResolveInvertsShortIdOf | governance-bot.py:168-175 | while short ids are distinct, the reversed lookup takes a proposal's short id back to that proposal |
| ShortIds.CollisionLastWins | governance-bot.py:168 | a token that collides with an older short id is resolved to the newer proposal |
| Scheduler.Upcoming | governance-bot.py:394-396 | only instants at or after `now` are kept |
| Scheduler.UpcomingConcat | governance-bot.py:392-434 | dropping past instants works piece by piece, so the instants kept stay in their order |
| Scheduler.FiringTimes | governance-bot.py:392-434 | a pair gets at most one job per configured offset, and none before `now` |
| Scheduler.FiringTimesInOrder | governance-bot.py:392-434 | the firing instants are the from-start instants and then the before-end instants, in configuration order, with the past ones left out |
| Scheduler.EarlyStartDropsOffset | governance-bot.py:392-396 | an offset whose instant is before `now` gets no job at that instant |
| Scheduler.UpcomingCount | governance-bot.py:392-434 | each instant at or after `now` is kept as often as it occurs, and each earlier one never |
| Scheduler.FiringTimesExact | governance-bot.py:392-434 | the jobs of a pair fire once per offset whose instant is not in the past, and never at an instant in the past |
| Scheduler.FiringTimesAllUpcoming | governance-bot.py:392-434 | when no instant is in the past, every from-start instant fires, then every before-end instant, in configuration order |
| Scheduler.DefaultScenario | governance-bot.py:392-434 | offsets `[0]` and `[1]` on a four-hour proposal that starts now fire now and three hours later |
| Scheduler.CancelledIdempotent | governance-bot.py:145-147 | scheduling removal twice is the same as once |
| Scheduler.CancelClearsPair | governance-bot.py:139-155 | after cancelling, the pair has no job left to fire, every other pair keeps its live jobs, and the table stays consistent |
| Scheduler.ScheduleTracking | governance-bot.py:386-389 | replacing a pair's list keeps every job tracked exactly when the pair had no job still to fire |
| Scheduler.AddTracking | governance-bot.py:206-219 | appending the snooze job keeps every job tracked and adds exactly that job to the pair's live jobs |
| Scheduler.JobTable.ScheduleReminders | governance-bot.py:369-434 | the queue grows by one job per firing instant, in order, and the pair's list names exactly those jobs |
| Scheduler.JobTable.RegisterUpcoming | governance-bot.py:392-413 | one loop appends one job per instant not before `now`, in order, and lists each under the pair |
| Scheduler.JobTable.CancelScheduledReminders | governance-bot.py:139-155 | every listed job of the pair is marked removed, the entry is deleted, and a pair without an entry changes nothing |
| Scheduler.JobTable.AddReminder | governance-bot.py:206-219 | one job at the instant is appended, and the pair's list is extended by it, created if missing |
| Preferences.GetReminderIntervals | governance-bot.py:228-236 | no entry gives the defaults; a mapping entry overrides each list it names; any other entry fails the lookup |
| Preferences.SetEntry | governance-bot.py:182 | the chat is registered if new, the pair's entry becomes the state, and every other entry is unchanged |
| Preferences.MarkPending | governance-bot.py:346-352 | every chat keeps its entries and gains a `None` entry for the proposal if it had none; no chat is added |
| Preferences.MarkPendingAll | governance-bot.py:281-296 | after a run, every chat has exactly its old entries plus `None` entries for the handled proposals it lacked |
| Sources.EstimateEndTime | governance-bot.py:315-320 | the estimate is a whole number of 12-second blocks after `now`, counts the remaining blocks, and lies ahead exactly when the end block does |
| Sources.EstimateMonotone | governance-bot.py:315-320 | a later end block never gives an earlier estimate, and each extra block adds 12 seconds |
| Sources.OnChainIdsDistinct | governance-bot.py:324 | distinct on-chain proposal numbers reach the handler as distinct ids |
| Sources.FirstSightings | governance-bot.py:281-290 | at most one id per batch entry is handed on; `FirstSightingsSpec` states which |
| Sources.FirstSightingsSpec | governance-bot.py:281-296 | the Snapshot loop hands on only unknown ids, each once, and every unknown id of the batch |
| Sources.FirstSightingsAllNew | governance-bot.py:281-296 | a batch of distinct unknown ids is handed on whole and oldest first |
| Sources.FirstSightingsStep | governance-bot.py:286-290 | one more id is handed on exactly when it is neither known nor seen earlier in the batch |
| Bot.Interpret | governance-bot.py:159-225 | a press acts only when its payload has an action and a short id that the reversed map knows; "voted" marks exactly then; "remind in" snoozes exactly when its hours field also holds a number, by those hours |
| Bot.ButtonsAct | governance-bot.py:159-225 | with distinct short ids, each button sent for a proposal acts on that proposal, marking it or snoozing it by its hours |
| Bot.UnknownShortIdInert | governance-bot.py:170-173 | a payload whose short id no entry carries leaves everything unchanged |
| Bot.ScheduledForStep | governance-bot.py:346-350 | handling one more proposal adds exactly the pairs of chats that had no entry for it |
| Bot.Bot.constructor | governance-bot.py:120-121 | the bot starts with the loaded records and an empty job table |
| Bot.Bot.Start | governance-bot.py:437-450 | `/start` registers the chat with no entries unless it is registered, and changes nothing else |
| Bot.Bot.ButtonCallback | governance-bot.py:159-225 | "voted" records the vote, removes the pair's entry from the table and leaves no job of the pair to fire; "remind in" records the instant and adds one live job beside the old ones; anything else changes nothing |
| Bot.Bot.RecordVote | governance-bot.py:180-187 | the vote is recorded, the pair has no job left to fire, and every other pair keeps its live jobs |
| Bot.Bot.RecordSnooze | governance-bot.py:189-219 | the instant is recorded, and the pair's live jobs are the old ones plus the new job |
| Bot.Bot.HandleNewProposal | governance-bot.py:331-354 | the proposal gets a short id unless it has one; each chat without an entry gets a `None` entry and a list of distinct handles naming exactly the default-offset jobs, one per instant; every appended job is live and listed under such a pair; every other list and job is unchanged; an already-known proposal changes no job |
| Bot.Bot.VisitChat | governance-bot.py:346-353 | one visit of the loop keeps its bookkeeping: a chat with an entry changes nothing, and a chat without one gets its `None` entry and a list of distinct handles naming exactly its new jobs, and every job appended so far is live and listed under a new pair |
| Bot.Bot.AddPendingChat | governance-bot.py:347-350 | one chat without an entry gets its `None` entry and a fresh list naming exactly its new jobs |
| Bot.Bot.PollSnapshot | governance-bot.py:281-296 | one pass hands exactly the first sightings of unknown ids to the handler, oldest first, and adds the batch to the known set |
| Bot.Bot.SightSnapshot | governance-bot.py:286-296 | an id already known is skipped; otherwise it is added to the known set and the proposal is handled, extending the run by it |
| Bot.Bot.PollOnChain | governance-bot.py:311-325 | every event is handled, with no known-set check, as `str(proposalId)`: every registered chat gains a `None` entry for each id it lacked, each id has a short id and no old short id changes, the queue only grows, and the table gains a list for exactly the pairs of chats that lacked the entry |
| Bot.Bot.HandleOneOf | governance-bot.py:331-354 | one more handled proposal extends the run's entries, short ids, queue and table keys; the proposal's short id is assigned as `handle_new_proposal` does, each new pair is listed with distinct handles naming exactly its default-offset jobs, and every appended job is live and listed under a new pair |

## Left out

- Telegram I/O is not modelled: sending messages, answering callback queries, and the text, HTML and links of messages. The only effect of the proposal link (governance-bot.py:378-383) is on message text.
- Saving and loading the JSON files is not modelled. The in-memory records stand for the files: every handler saves before it returns, and the model reads the state it left.
- `send_reminder_message` firing jobs, and the job queue's own clock, are not modelled. A job "will still fire" while it is in the queue and not removed.
- Concurrency is not modelled. The two poll loops and the handlers run one after another, each to completion.
- The network clients are not modelled (the Snapshot GraphQL request, the web3 event filter, the block-number read). Their results are parameters: the batch, the events, and one block height per event.
- Errors the loops catch and log are not modelled: Snapshot API errors, exceptions, and the sleep between polls.
- Offsets and button hours are whole numbers of hours. Fractional hours, and Python's `float` rendering and parsing (`2.0`, `1e1`, `nan`, `inf`), are not modelled. `Numerals.ParseInt` accepts only an optionally signed run of digits.
- Timezones and ISO formatting of the snoozed instant are not modelled; `NextReminderAt` holds the instant itself.
- A `remind_in` payload with a missing or non-numeric hours field makes the source raise after the short id is resolved. Here it is `NoEffect`: the exception leaves the state unchanged, since it comes before any write.
- `test_proposal` and the command registration in `main` are test and wiring code, and are not modelled.
- Bot.Bot.PollSnapshot: states the effect on the table's keys, on the entries and short ids, and on the queue as a growing log. It does not restate, per handled proposal, the exact jobs in each new pair's list. `HandleNewProposal` states those for one proposal.
- Bot.Bot.PollOnChain: states the same run-level effect as `PollSnapshot`. It does not state the per-pair job lists, so the end estimate and `readAt` appear in its body only. `EstimateEndTime` and `HandleOneOf` state them for one event.
- Instants are unbounded integers. Python's `datetime` range (years 1 to 9999) is not modelled: here every instant is written and every job registered. In the source an instant past that range raises `OverflowError`.
  - For a snooze (governance-bot.py:191) the exception comes before any write, so nothing changes.
  - For an offset (governance-bot.py:393 and 417) it comes inside `schedule_reminders`, partway through `handle_new_proposal`'s loop. The short id is already saved (:339). Earlier chats' jobs, and this pair's emptied list (:389), stay in `SCHEDULED_JOBS`. The `None` entries written in memory are never saved (:354). On the Snapshot path the id is already in the saved known set (:290-291), so the proposal is not handled again. The result is a listed pair without a preferences entry, which `Bot.Valid` excludes through `TableWithinPrefs`.
- Bot.Bot.HandleNewProposal: one clock reading `now` stands for all the readings of a call. The source reads the clock again in every `schedule_reminders` call, once per chat (governance-bot.py:372). A later chat can then lose an instant that falls between two readings, so in the source the new pairs' lists need not all be the same. The same holds for `Bot.Bot.HandleOneOf`, `Bot.Bot.PollSnapshot` and `Bot.Bot.PollOnChain`, which use one `now` per pass.
- Bot.Bot.PollOnChain: one reading `readAt` stands for the clock readings of every event of a pass. The source reads the clock twice per event, for the end estimate (governance-bot.py:320) and for the start (:321); these are treated as one reading.
- Preferences.GetReminderIntervals: any entry that is not a mapping is one error case (`None`). Python's `AttributeError` for `None`, `"voted"` and an ISO string is not distinguished from other failures.
