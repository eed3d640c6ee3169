# Finance bot ledger — a Dafny model

This project models the ledger logic of a Telegram personal-finance bot
(`bot.js`). Users send commands that record expenses and incomes, set one
saving goal, clear everything, and ask for a full report, a goal report or
statistics over a date range. All state is one stored document with three
collections: `expenses`, `incomes` and `savingGoals`. `expense`, `income`
and `goal` read that document, change it and write it back; `reset` writes
the empty document without reading.

The model leaves out the transport and the file system. Each command is a
pure function of the message text, the sender's id, the current instant
(milliseconds), the stored blob and the foreign parsers. It returns the blob after the command
and the content of the reply.

Modules:

- `Wrappers`: `Option` and `Result`.
- `Tokens`: JavaScript's `split(" ")` and `join(" ")` on strings, with both
  round trips proved.
- `Arguments`: argument parsing for `expense`/`income` (amount and
  description), `goal` (one amount) and `statistics` (two dates).
  `parseFloat`, the `YYYY-MM-DD` date reader and the start-of-day computation
  are foreign. They are passed in as the `Parsers` parameter, and validation
  is stated only in terms of their results (`None` stands for `NaN` or an
  invalid date). The end of a day is its start plus 86 399 999 ms.
- `Ledger`: the `Document`, its records and goals, appending a record,
  replacing the goal, and the invariant that every amount is positive.
- `Store`: what `readData` makes of the stored blob (missing collections
  become empty; an absent or unparseable blob becomes the empty document) and
  what `writeData` stores.
- `Reports`: sums (left folds, as `reduce` computes them), the full report,
  the goal report, and `calculateStatistics` with its inclusive date filter.
- `Bot`: a function for expense/income, goal and statistics, and the
  `Handle` dispatcher, which handles start, help, report, reset and
  goalreport itself.

Amounts are exact `real`s and instants are integer milliseconds.

In these places the code behaves in ways that are easy to misread; the
model follows the code as written:

- An amount is whatever `parseFloat` returns.
- `goal` reads only token 1 and ignores the rest.
- `statistics` ignores tokens after the second date and accepts an end date
  before the start date; such a range matches nothing.
- Goal progress is 0 whenever the goal amount is not above zero, whether
  that goal is 0 or negative.
- `"5 "` after the command yields a single empty description token. It
  passes the "has a description" check, so the entry is stored with an empty
  description.

## Model

| member | source | states |
|---|---|---|
| Tokens.JoinSplit | bot.js:65-77 | joining the tokens of `split(" ")` with single spaces gives back the original text exactly |
| Tokens.SplitJoin | bot.js:65-77 | splitting a single-space join of one or more space-free tokens gives back those tokens |
| Tokens.Split | bot.js:65 | `split(" ")` always yields at least one token and no token contains a space |
| Tokens.Join | bot.js:77 | `join(" ")` starts with the first token, and when there is a second token, the first is followed by a separating space; with Split it forms the two round trips below |
| Tokens.JoinTail | bot.js:65 | a text with a space is its first token, a space, and the join of the remaining tokens |
| Arguments.ParseEntry | bot.js:65-72 | usage error exactly when the amount token is missing or empty or no description token follows; invalid-amount error exactly when a present amount is NaN or not above zero; on success the amount is positive and is the parsed token, and the description is the remaining tokens joined |
| Arguments.ParseEntryAccepts | bot.js:65-77 | `<cmd> <amount> <rest>` with a positive amount is accepted, and the description is exactly `<rest>`, inner spaces included |
| Arguments.ParseEntryShape | bot.js:65-77 | an accepted command line is its command token, a space, its amount token, a space, and its description |
| Arguments.ParseEntryRejectsAmount | bot.js:69-72 | an amount token that is present and followed by a description, but is not a number above zero, gets the invalid-amount error |
| Arguments.ParseEntryNoDescription | bot.js:65-68 | an amount with no description after it is a usage error |
| Arguments.ParseEntryTrailingSpace | bot.js:65-66 | a trailing space after the amount is accepted with an empty description |
| Arguments.ParseGoal | bot.js:188-191 | a goal is accepted exactly when token 1 exists and parses to a number above zero, with that number as the goal; every failure is the invalid-amount error |
| Arguments.ParseGoalAccepts | bot.js:188-191 | `<cmd> <amount>` sets the goal exactly when the amount parses above zero, and is rejected otherwise |
| Arguments.ParseGoalIgnoresExtra | bot.js:188 | tokens after the goal amount do not affect the outcome |
| Arguments.ParseRange | bot.js:245-251 | accepted exactly when tokens 1 and 2 exist and both read as dates; the range runs from the start of the first day to the start of the last day plus 86 399 999 ms |
| Arguments.ParseRangeAccepts | bot.js:245-247 | `<cmd> <start> <end> <rest>` reads exactly the two date tokens and ignores the rest |
| Arguments.ParseRangeRejects | bot.js:249-251 | an unreadable start or end date is rejected with the invalid-dates error |
| Ledger.Record | bot.js:73-80 | appending makes the chosen ledger exactly one longer, with the new record last and the earlier records unchanged; the other ledger and the goals are unchanged |
| Ledger.SetGoal | bot.js:193 | the goals become exactly the one new goal; both ledgers are unchanged |
| Ledger.SetGoalTwice | bot.js:193 | setting a goal twice keeps only the second goal |
| Ledger.RecordPreservesValid | bot.js:69-80 | recording a positive amount keeps every stored amount positive |
| Ledger.SetGoalPreservesValid | bot.js:189-193 | setting a positive goal keeps every stored amount positive |
| Store.Load | bot.js:13-29 | absent or unparseable blob gives the all-empty document; each missing collection defaults to empty and each present one is kept |
| Store.Save | bot.js:32-34 | a written blob always holds all three collections |
| Store.LoadSave | bot.js:13-34 | loading a saved document gives it back unchanged |
| Store.SaveLoadIdempotent | bot.js:13-34 | `save(load())` applied twice stores the same blob as applied once |
| Store.SaveLoadFillsIn | bot.js:18-22 | a blob holding all three collections is rewritten unchanged by load-then-save |
| Reports.Sum | bot.js:113-116 | the `reduce` total (a left fold from 0) of an empty ledger is 0 and of one record is its amount; SumConcat and SumPositive state the rest |
| Reports.SumConcat | bot.js:113-116 | the `reduce` total of two ledgers end to end is the sum of their totals |
| Reports.SumPositive | bot.js:113-116 | a ledger of positive amounts totals at least zero, and more than zero when it is not empty |
| Reports.Report | bot.js:106-171 | line items are every expense and income of every user in recording order; an empty ledger totals 0; balance is income total minus expense total |
| Reports.ReportAfterRecord | bot.js:111-129 | recording a record by any user raises its ledger's total by exactly its amount and leaves the other total alone; the balance moves by plus or minus that amount |
| Reports.ReportOfValid | bot.js:111-126 | with positive amounts both totals are non-negative |
| Reports.BalanceExample | bot.js:111-129 | incomes 10 and 20 against expense 5 give balance 25 |
| Reports.GoalReport | bot.js:202-209 | saved is the gross income total, the same as the full report's income total; goal is the first goal or 0; progress is 0 unless the goal is above zero, and then progress × goal = 100 × saved |
| Reports.GoalReportIgnoresExpenses | bot.js:202-209 | recording an expense never changes the goal report |
| Reports.GoalProgressOfValid | bot.js:202-209 | with positive amounts, progress is non-negative |
| Reports.GoalProgressExample | bot.js:202-209 | incomes totalling 40 against a goal of 100 give progress 40 |
| Reports.InRange | bot.js:221-229 | the date test is inclusive at both ends: a record dated exactly at the start or at the end passes whenever the range is non-empty, and a range whose end precedes its start accepts nothing |
| Reports.Filter | bot.js:221-229 | every record kept by the date filter lies in the closed range, and the result is no longer than the input |
| Reports.FilterCounts | bot.js:221-229 | each record occurs in the filtered ledger as often as in the original if it is in range, and not at all otherwise |
| Reports.FilterIsSubsequence | bot.js:221-229 | the filtered ledger is the original's records at exactly the in-range positions, in increasing position order |
| Reports.FilterConcat | bot.js:221-229 | filtering two ledgers end to end is the concatenation of their filtered ledgers |
| Reports.FilterAll | bot.js:221-229 | when every record is in range, nothing is filtered out |
| Reports.FilterNone | bot.js:221-229 | when no record is in range, everything is filtered out |
| Reports.SumFilterBound | bot.js:221-238 | over positive amounts, a filtered total lies between 0 and the full total |
| Reports.CalculateStatistics | bot.js:220-240 | the filtered lists are the date-filtered ledgers, and the returned totals are their sums |
| Reports.StatisticsWithinReport | bot.js:220-240 | over a valid document, range totals are between 0 and the full report totals |
| Reports.StatisticsCoverAll | bot.js:220-240 | a range covering every record reproduces the full report totals |
| Reports.StatisticsReversed | bot.js:220-240 | an end before the start matches nothing, so both totals are 0 |
| Reports.StatisticsAfterRecord | bot.js:220-240 | recording a record changes its ledger's range total by its amount exactly when its date is in range, and never changes the other ledger's |
| Bot.RecordCommand | bot.js:63-82 | a rejected expense or income leaves the blob untouched and replies with the error; an accepted one appends a record carrying the sender, the parsed amount, the joined description and the current instant; everything else stays the same |
| Bot.GoalCommand | bot.js:186-196 | a rejected goal leaves the blob untouched; an accepted one makes the goals exactly that one goal and keeps both ledgers |
| Bot.StatisticsCommand | bot.js:244-261 | the store is only read; invalid dates are rejected; otherwise the reply holds the sums of the in-range records of each ledger |
| Bot.Handle | bot.js:41-261 | read-only and rejected commands leave the blob as it was, even an unparseable one; only expense, income, goal and statistics can be rejected; reset stores the empty document whatever was stored before |
| Bot.HandlePreservesValid | bot.js:63-196 | no command can make a stored amount non-positive |
| Bot.ResetThenReport | bot.js:106-183 | reset followed by report shows no line items and zero totals |
| Bot.GoalTwice | bot.js:186-196 | two accepted goal commands leave only the second goal stored |
| Bot.EndOfDayInclusive | bot.js:220-247 | a record at the last millisecond of the end day is counted by statistics; one at the first millisecond of the next day is not |
| Bot.ExpenseNotANumber | bot.js:69-72 | `expense abc desc` is rejected as an invalid amount and the store is untouched |
| Bot.ExpenseNegative | bot.js:69-72 | `expense -5 desc` is rejected as an invalid amount and the store is untouched |
| Bot.GoalZero | bot.js:188-191 | `goal 0` is rejected and the store is untouched |

## Left out

- Telegram transport: handler registration, `ctx.reply`, `bot.launch`, and the
  start and help texts. These are I/O; the model keeps only which reply is
  sent (`Welcome`, `CommandList`).
- File access and JSON text. The blob is modelled as already parsed. Fields
  that are present but not arrays, records with malformed amounts or dates
  (for example string amounts, which the report passes through `parseFloat`
  but the goal report adds as they are), and write failures (logged and
  swallowed) are not modelled.
- Currency formatting with `Intl.NumberFormat`, `moment` date formatting,
  and the `toFixed(2)` rounding of progress. Replies carry the exact numbers.
- How `parseFloat` and the `moment` date reader treat particular strings,
  and time zones. These are foreign and appear only as the `Parsers`
  parameter; the start of a day is whatever `dayStart` returns.
- Daylight-saving transitions. Every day is taken as 24 hours long, so the
  end of a day is its start plus 86 399 999 ms. The date library's
  `endOf("day")` is the start of the next local day minus 1 ms, which differs
  on a day when the clocks change.
- IEEE-754 rounding, `Infinity` and overflow in sums and division. Amounts
  are exact reals.
- The lost-update race between overlapping read-modify-write cycles. It is a
  concurrency matter and the source has no locking to model.
- The wall clock. `new Date()` is the `now` parameter, and the ISO string
  round trip of a timestamp is taken as exact to the millisecond.
