/** The command handlers, with the chat transport removed: each command takes
    the message text, the sender, the current instant, the stored blob and
    the foreign parsers, and yields the blob afterwards and the reply it would send. */
module Bot {
  import opened Wrappers
  import opened Tokens
  import opened Arguments
  import Ledger
  import Store
  import Reports

  datatype Command =
    | Start | Help | Expense | Income | Report | Reset | Goal | GoalReport | Statistics
  {
    /** Commands that never write the store. */
    predicate ReadOnly() {
      Start? || Help? || Report? || GoalReport? || Statistics?
    }

    /** Commands whose arguments are validated. */
    predicate TakesArguments() {
      Expense? || Income? || Goal? || Statistics?
    }
  }

  /** The content of each reply; currency and date formatting is not modelled. */
  datatype Reply =
    | Welcome
    | CommandList
    | Added(book: Ledger.Book)
    | Cleared
    | GoalAccepted(amount: real)
    | ReportReply(report: Reports.FullReport)
    | GoalReportReply(progress: Reports.GoalProgress)
    | StatisticsReply(range: Range, totalExpenses: real, totalIncomes: real)
    | Rejected(error: ArgError)

  datatype Outcome = Outcome(blob: Store.Blob, reply: Reply)

  /** `expense` / `income`: a rejected command line returns before the store
      is read, so the blob is untouched; an accepted one appends a record
      stamped with the sender and the current instant to the chosen ledger of
      the loaded document and writes the document back. */
  function RecordCommand(book: Ledger.Book, text: string, userId: int, now: int,
                         blob: Store.Blob, number: string -> Option<real>): (r: Outcome)
    ensures r.reply.Rejected? ==> r.blob == blob
    ensures ParseEntry(text, number).Failure? ==>
      r == Outcome(blob, Rejected(ParseEntry(text, number).error))
    ensures ParseEntry(text, number).Success? ==>
      var args := ParseEntry(text, number).value;
      var before := Store.Load(blob);
      var after := Store.Load(r.blob);
      && r.reply == Added(book)
      && Ledger.Entries(after, book)
         == Ledger.Entries(before, book) + [Ledger.Entry(userId, args.amount, args.description, now)]
      && Ledger.Entries(after, book.Other()) == Ledger.Entries(before, book.Other())
      && after.savingGoals == before.savingGoals
  {
    match ParseEntry(text, number)
    case Failure(e) => Outcome(blob, Rejected(e))
    case Success(args) =>
      var doc := Store.Load(blob);
      var entry := Ledger.Entry(userId, args.amount, args.description, now);
      Store.LoadSave(Ledger.Record(doc, book, entry));
      Outcome(Store.Save(Ledger.Record(doc, book, entry)), Added(book))
  }

  /** `goal`: a rejected amount leaves the blob untouched; an accepted one
      replaces the goals of the loaded document by that single goal. */
  function GoalCommand(text: string, blob: Store.Blob, number: string -> Option<real>): (r: Outcome)
    ensures r.reply.Rejected? ==> r.blob == blob
    ensures ParseGoal(text, number).Failure? ==> r == Outcome(blob, Rejected(InvalidAmount))
    ensures ParseGoal(text, number).Success? ==>
      var amount := ParseGoal(text, number).value;
      && r.reply == GoalAccepted(amount)
      && Store.Load(r.blob).savingGoals == [Ledger.Goal(amount)]
      && Store.Load(r.blob).expenses == Store.Load(blob).expenses
      && Store.Load(r.blob).incomes == Store.Load(blob).incomes
  {
    match ParseGoal(text, number)
    case Failure(e) => Outcome(blob, Rejected(e))
    case Success(amount) =>
      var doc := Ledger.SetGoal(Store.Load(blob), amount);
      Store.LoadSave(doc);
      Outcome(Store.Save(doc), GoalAccepted(amount))
  }

  /** `statistics`: invalid dates are rejected; otherwise the totals of the
      records dated within the closed range are reported. The store is only
      read. */
  function StatisticsCommand(text: string, blob: Store.Blob, p: Parsers): (r: Outcome)
    ensures r.blob == blob
    ensures ParseRange(text, p).Failure? ==> r.reply == Rejected(InvalidDates)
    ensures ParseRange(text, p).Success? ==>
      var range := ParseRange(text, p).value;
      var doc := Store.Load(blob);
      r.reply == StatisticsReply(range, Reports.Sum(Reports.Filter(doc.expenses, range)),
                                        Reports.Sum(Reports.Filter(doc.incomes, range)))
  {
    match ParseRange(text, p)
    case Failure(e) => Outcome(blob, Rejected(e))
    case Success(range) =>
      var stats := Reports.CalculateStatistics(Store.Load(blob), range);
      Outcome(blob, StatisticsReply(range, stats.totalExpenses, stats.totalIncomes))
  }

  /** One command. Read-only commands and rejected commands leave the blob
      exactly as it was (even an unparseable one); only `expense`, `income`,
      `goal` and `statistics` can be rejected; `reset` stores the empty
      document whatever was stored before. */
  function Handle(cmd: Command, text: string, userId: int, now: int,
                  blob: Store.Blob, p: Parsers): (r: Outcome)
    ensures cmd.ReadOnly() || r.reply.Rejected? ==> r.blob == blob
    ensures r.reply.Rejected? ==> cmd.TakesArguments()
    ensures cmd == Reset ==> Store.Load(r.blob) == Ledger.Empty && r.reply == Cleared
  {
    match cmd
    case Start => Outcome(blob, Welcome)
    case Help => Outcome(blob, CommandList)
    case Expense => RecordCommand(Ledger.Expenses, text, userId, now, blob, p.number)
    case Income => RecordCommand(Ledger.Incomes, text, userId, now, blob, p.number)
    case Report => Outcome(blob, ReportReply(Reports.Report(Store.Load(blob))))
    case Reset => Outcome(Store.Save(Ledger.Empty), Cleared)
    case Goal => GoalCommand(text, blob, p.number)
    case GoalReport => Outcome(blob, GoalReportReply(Reports.GoalReport(Store.Load(blob))))
    case Statistics => StatisticsCommand(text, blob, p)
  }

  /** Every command keeps all stored amounts positive. */
  lemma HandlePreservesValid(cmd: Command, text: string, userId: int, now: int,
                             blob: Store.Blob, p: Parsers)
    requires Ledger.Valid(Store.Load(blob))
    ensures Ledger.Valid(Store.Load(Handle(cmd, text, userId, now, blob, p).blob))
  {
    var doc := Store.Load(blob);
    match cmd
    case Expense =>
      if ParseEntry(text, p.number).Success? {
        var args := ParseEntry(text, p.number).value;
        Ledger.RecordPreservesValid(doc, Ledger.Expenses, Ledger.Entry(userId, args.amount, args.description, now));
      }
    case Income =>
      if ParseEntry(text, p.number).Success? {
        var args := ParseEntry(text, p.number).value;
        Ledger.RecordPreservesValid(doc, Ledger.Incomes, Ledger.Entry(userId, args.amount, args.description, now));
      }
    case Goal =>
      if ParseGoal(text, p.number).Success? {
        Ledger.SetGoalPreservesValid(doc, ParseGoal(text, p.number).value);
      }
    case _ =>
  }

  /** `reset` followed by `report` shows no line items and zero totals. */
  lemma ResetThenReport(text: string, userId: int, now: int, blob: Store.Blob, p: Parsers)
    ensures var cleared := Handle(Reset, text, userId, now, blob, p).blob;
      Handle(Report, text, userId, now, cleared, p).reply
      == ReportReply(Reports.FullReport([], [], 0.0, 0.0, 0.0))
  {
  }

  /** Setting a goal twice keeps only the second one. */
  lemma GoalTwice(first: string, second: string, blob: Store.Blob, p: Parsers)
    requires ParseGoal(first, p.number).Success? && ParseGoal(second, p.number).Success?
    ensures var once := GoalCommand(first, blob, p.number).blob;
      Store.Load(GoalCommand(second, once, p.number).blob)
      == Ledger.SetGoal(Store.Load(blob), ParseGoal(second, p.number).value)
  {
  }

  /** A record stamped at the last millisecond of the end day is counted by
      `statistics`, provided it is not before the start day; one stamped at
      the first millisecond of the following day is not. */
  lemma EndOfDayInclusive(cmd: string, first: string, last: string, p: Parsers, e: Ledger.Entry)
    requires IsWord(cmd) && IsWord(first) && IsWord(last)
    requires p.calendarDay(first).Some? && p.calendarDay(last).Some?
    requires p.dayStart(p.calendarDay(first).value) <= e.date
    ensures ParseRange(cmd + [Space] + first + [Space] + last, p).Success?
    ensures var range := ParseRange(cmd + [Space] + first + [Space] + last, p).value;
      var dayEnd := p.dayStart(p.calendarDay(last).value);
      && (e.date == dayEnd + EndOfDayOffset ==> Reports.Filter([e], range) == [e])
      && (e.date == dayEnd + MsPerDay ==> Reports.Filter([e], range) == [])
  {
    SplitDates(cmd, first, last, "");
    assert [e][..0] == [];
  }

  /** `expense abc desc`: a non-numeric amount is rejected and the store is
      left untouched. */
  lemma ExpenseNotANumber(userId: int, now: int, blob: Store.Blob, p: Parsers)
    requires p.number("abc") == None
    ensures Handle(Expense, "/expense abc desc", userId, now, blob, p) == Outcome(blob, Rejected(InvalidAmount))
  {
    assert IsWord("/expense") && IsWord("abc");
    assert "/expense abc desc" == "/expense" + [Space] + "abc" + [Space] + "desc";
    ParseEntryRejectsAmount("/expense", "abc", "desc", p.number);
  }

  /** `expense -5 desc`: a negative amount is rejected and the store is left
      untouched. */
  lemma ExpenseNegative(userId: int, now: int, blob: Store.Blob, p: Parsers)
    requires p.number("-5") == Some(-5.0)
    ensures Handle(Expense, "/expense -5 desc", userId, now, blob, p) == Outcome(blob, Rejected(InvalidAmount))
  {
    assert IsWord("/expense") && IsWord("-5");
    assert "/expense -5 desc" == "/expense" + [Space] + "-5" + [Space] + "desc";
    ParseEntryRejectsAmount("/expense", "-5", "desc", p.number);
  }

  /** `goal 0`: a zero goal is rejected and the store is left untouched. */
  lemma GoalZero(userId: int, now: int, blob: Store.Blob, p: Parsers)
    requires p.number("0") == Some(0.0)
    ensures Handle(Goal, "/goal 0", userId, now, blob, p) == Outcome(blob, Rejected(InvalidAmount))
  {
    assert IsWord("/goal") && IsWord("0");
    assert "/goal 0" == "/goal" + [Space] + "0";
    ParseGoalAccepts("/goal", "0", p.number);
  }
}
