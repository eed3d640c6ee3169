/** Parsing of the argument text of the `expense`, `income`, `goal` and
    `statistics` commands. Number and date recognition are done by foreign
    libraries (JavaScript's `parseFloat` and the `moment` date library);
    they are passed in as `Parsers`, and validation is stated only in terms
    of what they return. */
module Arguments {
  import opened Wrappers
  import opened Tokens

  /** A calendar date as the `YYYY-MM-DD` date library reads it. */
  datatype CalendarDay = CalendarDay(year: int, month: int, day: int)

  /** The foreign functions the command handlers call.
      - `number`: `parseFloat`, with `None` standing for `NaN`;
      - `calendarDay`: reading a `YYYY-MM-DD` token, `None` for an invalid date;
      - `dayStart`: the instant (milliseconds) at which a calendar day starts. */
  datatype Parsers = Parsers(
    number: string -> Option<real>,
    calendarDay: string -> Option<CalendarDay>,
    dayStart: CalendarDay -> int)

  /** Why a command's arguments were rejected: the usage reply
      ("Please enter the command in the format ..."), the invalid-amount
      reply, or the invalid-dates reply. */
  datatype ArgError = Usage | InvalidAmount | InvalidDates

  /** The validated arguments of `expense` and `income`. */
  datatype EntryArgs = EntryArgs(amount: real, description: string)

  /** A closed interval of instants, in milliseconds. */
  datatype Range = Range(start: int, end: int)

  const MsPerDay: int := 86_400_000

  /** `endOf("day")` is the last millisecond of the day. */
  const EndOfDayOffset: int := MsPerDay - 1

  /** The amount check `!(isNaN(x) || x <= 0)`. */
  predicate Positive(x: Option<real>) {
    x.Some? && x.value > 0.0
  }

  /** `expense` / `income`: the tokens after the command are the amount token
      followed by the description tokens. A missing or empty amount token, or
      no description token at all, gives the usage error; an amount that is
      not a number or not above zero gives the invalid-amount error; the
      description is the remaining tokens joined with single spaces. */
  function ParseEntry(text: string, number: string -> Option<real>): (r: Result<EntryArgs, ArgError>)
    ensures r.Success? ==> r.value.amount > 0.0
    ensures r == Failure(Usage) <==> |Split(text)| < 3 || Split(text)[1] == ""
    ensures r == Failure(InvalidAmount) <==>
      |Split(text)| >= 3 && Split(text)[1] != "" && !Positive(number(Split(text)[1]))
    ensures r.Success? ==>
      && number(Split(text)[1]) == Some(r.value.amount)
      && r.value.description == Join(Split(text)[2..])
  {
    var args := Split(text)[1..];
    if |args| == 0 || args[0] == "" || |args| == 1 then
      Failure(Usage)
    else
      match number(args[0])
      case None => Failure(InvalidAmount)
      case Some(x) =>
        if x <= 0.0 then Failure(InvalidAmount)
        else Success(EntryArgs(x, Join(args[1..])))
  }

  /** A well-formed command line `<cmd> <amount> <rest>` is accepted with
      exactly the text after the space that follows the amount as its
      description, whatever spaces that text contains. */
  lemma ParseEntryAccepts(cmd: string, amount: string, rest: string, number: string -> Option<real>)
    requires IsWord(cmd) && IsWord(amount) && amount != ""
    requires Positive(number(amount))
    ensures ParseEntry(cmd + [Space] + amount + [Space] + rest, number)
            == Success(EntryArgs(number(amount).value, rest))
  {
    SplitCons2(cmd, amount, rest);
    JoinSplit(rest);
  }

  /** Conversely, an accepted command line is its command token, a space, the
      amount token, a space, and the description: splitting the description
      on spaces and joining it back loses nothing. */
  lemma ParseEntryShape(text: string, number: string -> Option<real>)
    requires ParseEntry(text, number).Success?
    ensures var ts := Split(text);
      text == ts[0] + [Space] + ts[1] + [Space] + ParseEntry(text, number).value.description
  {
    var ts := Split(text);
    JoinTail(text);
    assert ts[1..][0] == ts[1];
    assert ts[1..][1..] == ts[2..];
    assert Join(ts[1..]) == ts[1] + [Space] + Join(ts[2..]);
  }

  /** A present amount token followed by a description, but not a number
      above zero, gets the invalid-amount error. */
  lemma ParseEntryRejectsAmount(cmd: string, amount: string, rest: string, number: string -> Option<real>)
    requires IsWord(cmd) && IsWord(amount) && amount != ""
    requires !Positive(number(amount))
    ensures ParseEntry(cmd + [Space] + amount + [Space] + rest, number) == Failure(InvalidAmount)
  {
    SplitCons2(cmd, amount, rest);
  }

  /** An amount with nothing after it is a usage error, not an invalid amount. */
  lemma ParseEntryNoDescription(cmd: string, amount: string, number: string -> Option<real>)
    requires IsWord(cmd) && IsWord(amount)
    ensures ParseEntry(cmd + [Space] + amount, number) == Failure(Usage)
  {
    SplitCons(cmd, amount);
    SplitWord(amount);
  }

  /** A trailing space after the amount yields one empty description token,
      which passes the "at least one description token" check: the entry is
      accepted with an empty description. */
  lemma ParseEntryTrailingSpace(cmd: string, amount: string, number: string -> Option<real>)
    requires IsWord(cmd) && IsWord(amount) && amount != ""
    requires Positive(number(amount))
    ensures ParseEntry(cmd + [Space] + amount + [Space], number)
            == Success(EntryArgs(number(amount).value, ""))
  {
    ParseEntryAccepts(cmd, amount, "", number);
    assert cmd + [Space] + amount + [Space] + "" == cmd + [Space] + amount + [Space];
  }

  /** `goal`: only token 1 is read. A missing token reads as `NaN`; the
      amount must be a number above zero. */
  function ParseGoal(text: string, number: string -> Option<real>): (r: Result<real, ArgError>)
    ensures r.Success? <==> |Split(text)| >= 2 && Positive(number(Split(text)[1]))
    ensures r.Success? ==> r.value > 0.0 && number(Split(text)[1]) == Some(r.value)
    ensures r.Failure? ==> r.error == InvalidAmount
  {
    var ts := Split(text);
    if |ts| < 2 then Failure(InvalidAmount)
    else
      match number(ts[1])
      case None => Failure(InvalidAmount)
      case Some(x) => if x <= 0.0 then Failure(InvalidAmount) else Success(x)
  }

  /** `<cmd> <amount>` sets a goal exactly when the amount is a number above zero. */
  lemma ParseGoalAccepts(cmd: string, amount: string, number: string -> Option<real>)
    requires IsWord(cmd) && IsWord(amount)
    ensures Positive(number(amount)) ==> ParseGoal(cmd + [Space] + amount, number) == Success(number(amount).value)
    ensures !Positive(number(amount)) ==> ParseGoal(cmd + [Space] + amount, number) == Failure(InvalidAmount)
  {
    SplitCons(cmd, amount);
    SplitWord(amount);
  }

  /** Tokens after the amount do not influence the goal command. */
  lemma ParseGoalIgnoresExtra(cmd: string, amount: string, rest: string, number: string -> Option<real>)
    requires IsWord(cmd) && IsWord(amount)
    ensures ParseGoal(cmd + [Space] + amount + [Space] + rest, number)
            == ParseGoal(cmd + [Space] + amount, number)
  {
    SplitCons2(cmd, amount, rest);
    SplitCons(cmd, amount);
    SplitWord(amount);
  }

  /** `statistics`: tokens 1 and 2 are the start and end dates. Each must be
      present and read as a calendar date; the interval runs from the first
      millisecond of the start day to the last millisecond of the end day.
      An end day before the start day is not rejected. */
  function ParseRange(text: string, p: Parsers): (r: Result<Range, ArgError>)
    ensures r.Success? <==>
      |Split(text)| >= 3 && p.calendarDay(Split(text)[1]).Some? && p.calendarDay(Split(text)[2]).Some?
    ensures r.Success? ==>
      && r.value.start == p.dayStart(p.calendarDay(Split(text)[1]).value)
      && r.value.end == p.dayStart(p.calendarDay(Split(text)[2]).value) + MsPerDay - 1
    ensures r.Failure? ==> r.error == InvalidDates
  {
    var ts := Split(text);
    if |ts| < 3 then Failure(InvalidDates)
    else
      match (p.calendarDay(ts[1]), p.calendarDay(ts[2]))
      case (Some(first), Some(last)) =>
        Success(Range(p.dayStart(first), p.dayStart(last) + EndOfDayOffset))
      case _ => Failure(InvalidDates)
  }

  /** The tokens of `<cmd> <start> <end>`, with or without more text after. */
  lemma SplitDates(cmd: string, first: string, last: string, rest: string)
    requires IsWord(cmd) && IsWord(first) && IsWord(last)
    ensures Split(cmd + [Space] + first + [Space] + last + [Space] + rest) == [cmd, first, last] + Split(rest)
    ensures Split(cmd + [Space] + first + [Space] + last) == [cmd, first, last]
  {
    var head := cmd + [Space] + first;
    SplitCons2(cmd, first, last + [Space] + rest);
    SplitCons(last, rest);
    SpaceAssoc(head, last, rest);
    SplitCons2(cmd, first, last);
    SplitWord(last);
  }

  /** An unreadable start or end date is rejected, whatever follows it. */
  lemma ParseRangeRejects(cmd: string, first: string, last: string, rest: string, p: Parsers)
    requires IsWord(cmd) && IsWord(first) && IsWord(last)
    requires p.calendarDay(first).None? || p.calendarDay(last).None?
    ensures ParseRange(cmd + [Space] + first + [Space] + last + [Space] + rest, p) == Failure(InvalidDates)
    ensures ParseRange(cmd + [Space] + first + [Space] + last, p) == Failure(InvalidDates)
  {
    SplitDates(cmd, first, last, rest);
  }

  /** A command line `<cmd> <start> <end> <rest>` reads exactly its two date
      tokens; anything after them is ignored. */
  lemma ParseRangeAccepts(cmd: string, first: string, last: string, rest: string, p: Parsers)
    requires IsWord(cmd) && IsWord(first) && IsWord(last)
    requires p.calendarDay(first).Some? && p.calendarDay(last).Some?
    ensures ParseRange(cmd + [Space] + first + [Space] + last + [Space] + rest, p)
            == Success(Range(p.dayStart(p.calendarDay(first).value),
                             p.dayStart(p.calendarDay(last).value) + EndOfDayOffset))
  {
    SplitDates(cmd, first, last, rest);
  }
}
