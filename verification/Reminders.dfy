/**
 * The hourly fee reminder run (apps/api/src/modules/fees/fee.cron.ts): two keyset paging loops over
 * the queries of apps/api/src/modules/fees/fee.repository.ts. Dates are day numbers; each
 * coaching's local date and hour are inputs.
 */
module Reminders {
  import opened FeeLedger
  import opened Optional
  import Text

  // ---------- Keyset pages ----------

  /** A row with its primary key; tables are read in key order. */
  datatype Keyed<T> = Keyed(id: int, row: T)

  ghost predicate SortedById<T>(table: seq<Keyed<T>>) {
    forall i, j :: 0 <= i < j < |table| ==> table[i].id < table[j].id
  }

  /** The one-shot query. */
  function Matching<T>(table: seq<Keyed<T>>, where: T -> bool): seq<Keyed<T>> {
    if table == [] then []
    else if where(table[0].row) then [table[0]] + Matching(table[1..], where)
    else Matching(table[1..], where)
  }

  function IdAfter(id: int, cursor: Option<int>): bool {
    cursor.None? || id > cursor.value
  }

  function Beyond<T>(rows: seq<Keyed<T>>, cursor: Option<int>): seq<Keyed<T>> {
    if rows == [] then []
    else if IdAfter(rows[0].id, cursor) then [rows[0]] + Beyond(rows[1..], cursor)
    else Beyond(rows[1..], cursor)
  }

  /** One page: the first `take` matching rows beyond the cursor. */
  function Page<T>(table: seq<Keyed<T>>, where: T -> bool, cursor: Option<int>, take: nat): seq<Keyed<T>> {
    var rest := Beyond(Matching(table, where), cursor);
    if |rest| <= take then rest else rest[..take]
  }

  lemma {:induction false} MatchingStaysSorted<T>(table: seq<Keyed<T>>, where: T -> bool)
    requires SortedById(table)
    ensures SortedById(Matching(table, where))
    ensures forall i :: 0 <= i < |Matching(table, where)| ==> Matching(table, where)[i] in table
  {
    if table != [] {
      MatchingStaysSorted(table[1..], where);
    }
  }

  lemma {:induction false} BeyondAll<T>(rows: seq<Keyed<T>>, cursor: Option<int>)
    requires forall i :: 0 <= i < |rows| ==> IdAfter(rows[i].id, cursor)
    ensures Beyond(rows, cursor) == rows
  {
    if rows != [] {
      BeyondAll(rows[1..], cursor);
    }
  }

  /** In key order, the rows beyond the one before position `k` are those from `k` on. */
  lemma {:induction false} BeyondRow<T>(rows: seq<Keyed<T>>, k: nat)
    requires SortedById(rows) && 0 < k <= |rows|
    ensures Beyond(rows, Some(rows[k - 1].id)) == rows[k..]
  {
    if k == 1 {
      BeyondAll(rows[1..], Some(rows[0].id));
    } else {
      BeyondRow(rows[1..], k - 1);
      assert rows[1..][k - 2] == rows[k - 1] && rows[1..][k - 1..] == rows[k..];
    }
  }

  lemma {:induction false} BeyondTwice<T>(rows: seq<Keyed<T>>, cursor: Option<int>, id: int)
    requires IdAfter(id, cursor)
    ensures Beyond(Beyond(rows, cursor), Some(id)) == Beyond(rows, Some(id))
  {
    if rows != [] {
      BeyondTwice(rows[1..], cursor, id);
    }
  }

  lemma {:induction false} BeyondFacts<T>(rows: seq<Keyed<T>>, cursor: Option<int>)
    requires SortedById(rows)
    ensures SortedById(Beyond(rows, cursor))
    ensures forall i :: 0 <= i < |Beyond(rows, cursor)| ==>
              Beyond(rows, cursor)[i] in rows && IdAfter(Beyond(rows, cursor)[i].id, cursor)
  {
    if rows != [] {
      BeyondFacts(rows[1..], cursor);
    }
  }

  /** What is left of the one-shot query at this cursor. */
  function Left<T>(table: seq<Keyed<T>>, where: T -> bool, cursor: Option<int>): seq<Keyed<T>> {
    Beyond(Matching(table, where), cursor)
  }

  /** A short page is all that is left; after a full one, the rest is left for a cursor on its last row. */
  lemma PageContinues<T>(table: seq<Keyed<T>>, where: T -> bool, cursor: Option<int>, take: nat)
    requires SortedById(table) && take > 0
    ensures var page := Page(table, where, cursor, take);
            && |page| <= take
            && (|page| < take ==> page == Left(table, where, cursor))
            && (|page| == take ==> Left(table, where, cursor) == page + Left(table, where, Some(page[take - 1].id)))
  {
    MatchingStaysSorted(table, where);
    var all := Matching(table, where);
    BeyondFacts(all, cursor);
    var rest := Beyond(all, cursor);
    if |rest| >= take {
      BeyondRow(rest, take);
      BeyondTwice(all, cursor, rest[take - 1].id);
      assert rest == rest[..take] + rest[take..];
    }
  }

  // ---------- Stages ----------

  /** The stages lie 7, 3 and 0 days before the due date and 3, 7 and 14 days after it. */
  predicate IsStageDay(days: int) {
    days == 7 || days == 3 || days == 0 || days == -3 || days == -7 || days == -14
  }

  const FIRST_DAY: int := -14
  const LAST_DAY: int := 7

  function ReminderStage(daysUntilDue: int): Option<string> {
    if !IsStageDay(daysUntilDue) then None
    else if daysUntilDue > 0 then Some("D-" + Text.Decimal(daysUntilDue))
    else if daysUntilDue == 0 then Some("D0")
    else Some("D+" + Text.Decimal(-daysUntilDue))
  }

  lemma StageText(d: int)
    requires IsStageDay(d)
    ensures var text := ReminderStage(d).value;
            && |text| >= 2 && text[1] == (if d > 0 then '-' else if d == 0 then '0' else '+')
            && (d > 0 ==> text[2..] == Text.Decimal(d))
            && (d < 0 ==> text[2..] == Text.Decimal(-d))
  {
  }

  /** A stage's name belongs to one distance from the due date only. */
  lemma StageNamesOneDay(d: int, e: int)
    requires ReminderStage(d).Some? && ReminderStage(d) == ReminderStage(e)
    ensures d == e
  {
    StageText(d);
    StageText(e);
    if d > 0 {
      Text.DecimalInjective(d, e);
    } else if d < 0 {
      Text.DecimalInjective(-d, -e);
    }
  }

  // ---------- One coaching ----------

  datatype Reminder = Reminder(id: int, student: nat, amount: int, due: int, daysUntilDue: int, stage: string)

  predicate Unpaid(inst: Instalment) {
    inst.status == Pending || inst.status == Partial
  }

  predicate InWindow(inst: Instalment, today: int) {
    Unpaid(inst) && today + FIRST_DAY <= inst.due <= today + LAST_DAY
  }

  /** The reminder a row gets on this day, if the day is one of its stages. */
  function ReminderFor(x: Keyed<Instalment>, today: int): Option<Reminder> {
    var days := x.row.due - today;
    var stage := ReminderStage(days);
    if stage.None? then None
    else Some(Reminder(x.id, x.row.student, x.row.amount - x.row.paid, x.row.due, days, stage.value))
  }

  /** The reminders for these rows, in their order. */
  function RemindersFor(rows: seq<Keyed<Instalment>>, today: int): seq<Reminder> {
    if rows == [] then []
    else
      var reminder := ReminderFor(rows[|rows| - 1], today);
      RemindersFor(rows[..|rows| - 1], today) + if reminder.None? then [] else [reminder.value]
  }

  lemma {:induction false} RemindersAppend(a: seq<Keyed<Instalment>>, b: seq<Keyed<Instalment>>, today: int)
    ensures RemindersFor(a + b, today) == RemindersFor(a, today) + RemindersFor(b, today)
  {
    if b == [] {
      assert a + b == a;
    } else {
      var n := |b| - 1;
      assert (a + b)[..|a| + n] == a + b[..n];
      RemindersAppend(a, b[..n], today);
    }
  }

  /** The unpaid instalments in the window, by one query. */
  function DueSoon(table: seq<Keyed<Instalment>>, today: int): seq<Keyed<Instalment>> {
    Matching(table, (inst: Instalment) => InWindow(inst, today))
  }

  /** The window of the query drops no stage: without it the same reminders go out. */
  lemma {:induction false} WindowDropsNothing(table: seq<Keyed<Instalment>>, today: int)
    ensures RemindersFor(DueSoon(table, today), today) == RemindersFor(Matching(table, Unpaid), today)
  {
    var where := (inst: Instalment) => InWindow(inst, today);
    if table != [] {
      WindowDropsNothing(table[1..], today);
      RemindersAppend([table[0]], Matching(table[1..], where), today);
      RemindersAppend([table[0]], Matching(table[1..], Unpaid), today);
      assert !InWindow(table[0].row, today) && Unpaid(table[0].row) ==> RemindersFor([table[0]], today) == [];
    }
  }

  lemma OnePageMore(sent: seq<Reminder>, page: seq<Keyed<Instalment>>, rest: seq<Keyed<Instalment>>, today: int)
    ensures sent + RemindersFor(page + rest, today) == (sent + RemindersFor(page, today)) + RemindersFor(rest, today)
  {
    RemindersAppend(page, rest, today);
  }

  /** The inner loop of `remindCoaching`. */
  method RemindPage(page: seq<Keyed<Instalment>>, today: int) returns (sent: seq<Reminder>)
    ensures sent == RemindersFor(page, today)
  {
    sent := [];
    for i := 0 to |page|
      invariant sent == RemindersFor(page[..i], today)
    {
      assert page[..i + 1][..i] == page[..i];
      var inst := page[i].row;
      var days := inst.due - today;
      var stage := ReminderStage(days);
      if stage.Some? {
        sent := sent + [Reminder(page[i].id, inst.student, inst.amount - inst.paid, inst.due, days, stage.value)];
      }
    }
    assert page[..|page|] == page;
  }

  /** `remindCoaching`: the pages together send exactly the reminders of the one-shot query, each row once. */
  method RemindCoaching(table: seq<Keyed<Instalment>>, today: int, pageSize: nat)
      returns (triggered: nat, sent: seq<Reminder>)
    requires SortedById(table) && pageSize > 0
    ensures sent == RemindersFor(DueSoon(table, today), today) && triggered == |sent|
  {
    var where := (inst: Instalment) => InWindow(inst, today);
    BeyondAll(Matching(table, where), None);
    var cursor: Option<int> := None;
    triggered, sent := 0, [];
    while true
      invariant sent + RemindersFor(Left(table, where, cursor), today) == RemindersFor(Matching(table, where), today)
      invariant triggered == |sent|
      decreases |Left(table, where, cursor)|
    {
      PageContinues(table, where, cursor, pageSize);
      var page := Page(table, where, cursor, pageSize);
      var reminders := RemindPage(page, today);
      if |page| == pageSize {
        OnePageMore(sent, page, Left(table, where, Some(page[|page| - 1].id)), today);
      }
      sent := sent + reminders;
      triggered := triggered + |reminders|;
      if |page| < pageSize {
        break;
      }
      cursor := Some(page[|page| - 1].id);
    }
  }

  lemma {:induction false} ReminderFacts(rows: seq<Keyed<Instalment>>, today: int, r: Reminder)
    requires r in RemindersFor(rows, today)
    ensures ReminderStage(r.due - today) == Some(r.stage)
    ensures exists i :: 0 <= i < |rows| && rows[i].id == r.id && rows[i].row.due == r.due
  {
    var n := |rows| - 1;
    if r in RemindersFor(rows[..n], today) {
      ReminderFacts(rows[..n], today, r);
      var i :| 0 <= i < n && rows[..n][i].id == r.id && rows[..n][i].row.due == r.due;
      assert rows[i].id == r.id;
    } else {
      assert rows[n].id == r.id;
    }
  }

  /** The stages by name. */
  lemma StageNames()
    ensures ReminderStage(7) == Some("D-7") && ReminderStage(3) == Some("D-3") && ReminderStage(0) == Some("D0")
    ensures ReminderStage(-3) == Some("D+3") && ReminderStage(-7) == Some("D+7") && ReminderStage(-14) == Some("D+14")
    ensures forall d :: ReminderStage(d).Some? ==> d == 7 || d == 3 || d == 0 || d == -3 || d == -7 || d == -14
  {
    assert Text.Decimal(7) == "7" && Text.Decimal(3) == "3";
    assert Text.Decimal(14) == Text.Decimal(1) + [Text.Digit(4)] == "14";
    assert "D-" + "7" == "D-7" && "D-" + "3" == "D-3";
    assert "D+" + "3" == "D+3" && "D+" + "7" == "D+7" && "D+" + "14" == "D+14";
  }

  lemma {:induction false} RemindersOf(rows: seq<Keyed<Instalment>>, today: int, r: Reminder)
    ensures r in RemindersFor(rows, today) <==> exists x :: x in rows && ReminderFor(x, today) == Some(r)
  {
    if rows != [] {
      var front, last := rows[..|rows| - 1], rows[|rows| - 1];
      RemindersOf(front, today, r);
      assert rows == front + [last];
    }
  }

  lemma {:induction false} MatchingExactly<T>(table: seq<Keyed<T>>, where: T -> bool, x: Keyed<T>)
    ensures x in Matching(table, where) <==> x in table && where(x.row)
  {
    if table != [] {
      MatchingExactly(table[1..], where, x);
    }
  }

  /**
   * Who is reminded: exactly the PENDING and PARTIAL instalments that are due in 7 or 3 days or
   * today, or were due 3, 7 or 14 days ago, each of what is still unpaid.
   */
  lemma RemindedExactly(table: seq<Keyed<Instalment>>, today: int, r: Reminder)
    ensures r in RemindersFor(DueSoon(table, today), today) <==>
            exists x :: x in table && IsReminderOf(r, x, today)
  {
    var rows := DueSoon(table, today);
    RemindersOf(rows, today, r);
    StageNames();
    forall x
      ensures x in rows && ReminderFor(x, today) == Some(r) <==> x in table && IsReminderOf(r, x, today)
    {
      MatchingExactly(table, (inst: Instalment) => InWindow(inst, today), x);
    }
  }

  ghost predicate IsReminderOf(r: Reminder, x: Keyed<Instalment>, today: int) {
    && (x.row.status == Pending || x.row.status == Partial)
    && r.id == x.id && r.student == x.row.student && r.due == x.row.due && r.amount == x.row.amount - x.row.paid
    && r.daysUntilDue == x.row.due - today
    && ((r.daysUntilDue == 7 && r.stage == "D-7") || (r.daysUntilDue == 3 && r.stage == "D-3")
        || (r.daysUntilDue == 0 && r.stage == "D0") || (r.daysUntilDue == -3 && r.stage == "D+3")
        || (r.daysUntilDue == -7 && r.stage == "D+7") || (r.daysUntilDue == -14 && r.stage == "D+14"))
  }

  /** The instalments of a ledger as the table the run reads. */
  function TableOf(list: seq<Instalment>): seq<Keyed<Instalment>> {
    seq(|list|, i requires 0 <= i < |list| => Keyed(i, list[i]))
  }

  lemma ReminderIsOfItsRow(list: seq<Instalment>, today: int, r: Reminder)
    requires r in RemindersFor(DueSoon(TableOf(list), today), today)
    ensures 0 <= r.id < |list| && list[r.id].due == r.due && ReminderStage(r.due - today) == Some(r.stage)
  {
    var rows := DueSoon(TableOf(list), today);
    ReminderFacts(rows, today, r);
    MatchingStaysSorted(TableOf(list), (inst: Instalment) => InWindow(inst, today));
    var i :| 0 <= i < |rows| && rows[i].id == r.id && rows[i].row.due == r.due;
    assert rows[i] in TableOf(list);
  }

  /** In every reachable ledger a reminder asks for the instalment's open balance, and never for nothing. */
  lemma RemindersAskForBalances(states: seq<Ledger>, actions: seq<Action>, i: nat, today: int, r: Reminder)
    requires IsRun(states, actions) && i < |states|
    requires r in RemindersFor(DueSoon(TableOf(states[i].instalments), today), today)
    ensures 0 <= r.id < |states[i].instalments| && r.amount == Value(OpenBalance, states[i].instalments[r.id]) > 0
  {
    var table := TableOf(states[i].instalments);
    RemindedExactly(table, today, r);
    var x :| x in table && IsReminderOf(r, x, today);
    Reachable(states, actions, i);
  }

  /** Over all the days of a ledger's life, one instalment fires one stage on one local date only. */
  lemma StageFiresOnOneDate(states: seq<Ledger>, actions: seq<Action>, i: nat, j: nat, today: int, otherDay: int,
      r: Reminder, q: Reminder)
    requires IsRun(states, actions) && i <= j < |states|
    requires r in RemindersFor(DueSoon(TableOf(states[i].instalments), today), today)
    requires q in RemindersFor(DueSoon(TableOf(states[j].instalments), otherDay), otherDay)
    requires r.id == q.id && r.stage == q.stage
    ensures today == otherDay
  {
    ReminderIsOfItsRow(states[i].instalments, today, r);
    ReminderIsOfItsRow(states[j].instalments, otherDay, q);
    StatusIsFinal(states, actions, i, j, r.id);
    StageNamesOneDay(r.due - today, q.due - otherDay);
  }

  // ---------- All coachings ----------

  const REMINDER_LOCAL_HOUR: int := 10
  const PAGE_SIZE: nat := 200

  /** A coaching with its local time at this run; `throws` is after how many reminders it fails, if it does. */
  datatype Coaching = Coaching(
    active: bool, hour: int, today: int, table: seq<Keyed<Instalment>>, throws: Option<nat>)

  /** A reminder as it is published for a coaching. */
  datatype Sent = Sent(coaching: int, reminder: Reminder)

  ghost predicate TablesSorted(coachings: seq<Keyed<Coaching>>) {
    SortedById(coachings) && forall i :: 0 <= i < |coachings| ==> SortedById(coachings[i].row.table)
  }

  /** What goes out for one coaching: all its due reminders when it is ten o'clock there, up to the failure. */
  function Outgoing(c: Coaching): seq<Reminder> {
    var all := RemindersFor(DueSoon(c.table, c.today), c.today);
    if c.hour != REMINDER_LOCAL_HOUR then []
    else if c.throws.Some? && c.throws.value < |all| then all[..c.throws.value]
    else all
  }

  /** What one coaching adds to the count: nothing when it fails. */
  function Share(c: Coaching): nat {
    if c.throws.Some? then 0 else |Outgoing(c)|
  }

  function Shares(rows: seq<Keyed<Coaching>>): nat {
    if rows == [] then 0 else Share(rows[0].row) + Shares(rows[1..])
  }

  function For(coaching: int, reminders: seq<Reminder>): seq<Sent> {
    seq(|reminders|, i requires 0 <= i < |reminders| => Sent(coaching, reminders[i]))
  }

  function AllSent(rows: seq<Keyed<Coaching>>): seq<Sent> {
    if rows == [] then [] else For(rows[0].id, Outgoing(rows[0].row)) + AllSent(rows[1..])
  }

  function Ids<T>(rows: seq<Keyed<T>>): seq<int> {
    if rows == [] then [] else [rows[0].id] + Ids(rows[1..])
  }

  /** Where the run is after some of the coachings. */
  datatype Progress = Progress(triggered: nat, visited: seq<int>, sent: seq<Sent>) {
    function Then(rows: seq<Keyed<Coaching>>): Progress {
      Progress(triggered + Shares(rows), visited + Ids(rows), sent + AllSent(rows))
    }
  }

  lemma {:induction false} VisitedAppend(p: Progress, a: seq<Keyed<Coaching>>, b: seq<Keyed<Coaching>>)
    ensures p.Then(a).Then(b) == p.Then(a + b)
    decreases |a|
  {
    if a == [] {
      assert a + b == b;
      assert p.Then([]) == p;
    } else {
      assert (a + b)[1..] == a[1..] + b;
      var first := p.Then([a[0]]);
      ThenFirst(p, a);
      ThenFirst(p, a + b);
      VisitedAppend(first, a[1..], b);
    }
  }

  lemma ThenFirst(p: Progress, rows: seq<Keyed<Coaching>>)
    requires rows != []
    ensures p.Then(rows) == p.Then([rows[0]]).Then(rows[1..])
  {
    JustOne(rows[0]);
    Text.ConcatAssoc(p.visited, [rows[0].id], Ids(rows[1..]));
    Text.ConcatAssoc(p.sent, For(rows[0].id, Outgoing(rows[0].row)), AllSent(rows[1..]));
  }

  lemma JustOne(x: Keyed<Coaching>)
    ensures Shares([x]) == Share(x.row) && Ids([x]) == [x.id] && AllSent([x]) == For(x.id, Outgoing(x.row))
  {
    assert [x][1..] == [];
  }

  lemma OneCoachingMore(p: Progress, page: seq<Keyed<Coaching>>, i: nat)
    requires i < |page|
    ensures var c := page[i].row;
            var q := p.Then(page[..i]);
            p.Then(page[..i + 1])
            == Progress(q.triggered + Share(c), q.visited + [page[i].id], q.sent + For(page[i].id, Outgoing(c)))
  {
    VisitedAppend(p, page[..i], [page[i]]);
    JustOne(page[i]);
    assert page[..i + 1] == page[..i] + [page[i]];
  }

  /** The inner loop of `runDailyReminderCheck`: a coaching whose reminders throw adds nothing to the count. */
  method VisitPage(page: seq<Keyed<Coaching>>, before: Progress) returns (p: Progress)
    requires forall i :: 0 <= i < |page| ==> SortedById(page[i].row.table)
    ensures p == before.Then(page)
  {
    p := before;
    assert before.Then(page[..0]) == before;
    for i := 0 to |page|
      invariant p == before.Then(page[..i])
    {
      OneCoachingMore(before, page, i);
      var coaching := page[i].row;
      p := p.(visited := p.visited + [page[i].id]);
      if coaching.hour != REMINDER_LOCAL_HOUR {
        assert For(page[i].id, []) == [];
        continue;
      }
      var n, reminders := RemindCoaching(coaching.table, coaching.today, PAGE_SIZE);
      match coaching.throws
      case None =>
        p := p.(triggered := p.triggered + n, sent := p.sent + For(page[i].id, reminders));
      case Some(k) =>
        // The error is caught here, after the reminders that went out before it
        p := p.(sent := p.sent + For(page[i].id, if k < n then reminders[..k] else reminders));
    }
    assert page[..|page|] == page;
  }

  lemma PageTables(coachings: seq<Keyed<Coaching>>, where: Coaching -> bool, cursor: Option<int>, take: nat)
    requires TablesSorted(coachings)
    ensures var page := Page(coachings, where, cursor, take);
            forall i :: 0 <= i < |page| ==> SortedById(page[i].row.table)
  {
    MatchingStaysSorted(coachings, where);
    BeyondFacts(Matching(coachings, where), cursor);
  }

  /** `runDailyReminderCheck`: every active coaching is visited once, and reminded where it is ten o'clock. */
  method RunDailyReminderCheck(coachings: seq<Keyed<Coaching>>) returns (p: Progress)
    requires TablesSorted(coachings)
    ensures p == Progress(0, [], []).Then(Matching(coachings, (c: Coaching) => c.active))
  {
    var where := (c: Coaching) => c.active;
    BeyondAll(Matching(coachings, where), None);
    var cursor: Option<int> := None;
    p := Progress(0, [], []);
    while true
      invariant p.Then(Left(coachings, where, cursor)) == Progress(0, [], []).Then(Matching(coachings, where))
      decreases |Left(coachings, where, cursor)|
    {
      PageContinues(coachings, where, cursor, PAGE_SIZE);
      PageTables(coachings, where, cursor, PAGE_SIZE);
      var page := Page(coachings, where, cursor, PAGE_SIZE);
      if |page| == PAGE_SIZE {
        VisitedAppend(p, page, Left(coachings, where, Some(page[|page| - 1].id)));
      }
      p := VisitPage(page, p);
      if |page| < PAGE_SIZE {
        break;
      }
      cursor := Some(page[|page| - 1].id);
    }
  }

  lemma {:induction false} SentFor(rows: seq<Keyed<Coaching>>, x: Sent)
    ensures x in AllSent(rows) <==> exists c :: c in rows && c.id == x.coaching && x.reminder in Outgoing(c.row)
  {
    if rows != [] {
      var first, rest := rows[0], rows[1..];
      SentFor(rest, x);
      InFor(first.id, Outgoing(first.row), x);
      assert AllSent(rows) == For(first.id, Outgoing(first.row)) + AllSent(rest);
      assert rows == [first] + rest;
    }
  }

  lemma InFor(coaching: int, reminders: seq<Reminder>, x: Sent)
    ensures x in For(coaching, reminders) <==> x.coaching == coaching && x.reminder in reminders
  {
    if x.coaching == coaching && x.reminder in reminders {
      var i :| 0 <= i < |reminders| && reminders[i] == x.reminder;
      assert For(coaching, reminders)[i] == x;
    }
  }

  function Unfailing(c: Coaching): bool {
    c.throws.None?
  }

  /** The count is the number of reminders sent for coachings that do not fail. */
  lemma {:induction false} CountIsSent(rows: seq<Keyed<Coaching>>)
    ensures Shares(rows) == |AllSent(Matching(rows, Unfailing))|
  {
    if rows != [] {
      var first, rest := rows[0], Matching(rows[1..], Unfailing);
      CountIsSent(rows[1..]);
      assert ([first] + rest)[1..] == rest;
    }
  }

  /**
   * What a run sends: for every active coaching at whose place it is ten o'clock, and that does not
   * fail, exactly its due reminders, and nothing at any other hour. The count is the number sent for
   * those that do not fail.
   */
  lemma RunReminds(coachings: seq<Keyed<Coaching>>, c: Keyed<Coaching>, r: Reminder)
    requires TablesSorted(coachings) && c in coachings
    ensures var p := Progress(0, [], []).Then(Matching(coachings, (c: Coaching) => c.active));
            && (c.row.throws.None? ==>
                  (Sent(c.id, r) in p.sent <==>
                     && c.row.active && c.row.hour == 10
                     && exists x :: x in c.row.table && IsReminderOf(r, x, c.row.today)))
            && (Sent(c.id, r) in p.sent ==> c.row.active && c.row.hour == 10)
            && p.triggered == |AllSent(Matching(Matching(coachings, (c: Coaching) => c.active), Unfailing))|
  {
    var where := (c: Coaching) => c.active;
    var rows := Matching(coachings, where);
    SentFor(rows, Sent(c.id, r));
    MatchingExactly(coachings, where, c);
    RemindedExactly(c.row.table, c.row.today, r);
    MatchingStaysSorted(coachings, where);
    forall d | d in rows && d.id == c.id
      ensures d == c
    {
      SameId(coachings, c, d);
    }
    CountIsSent(rows);
  }

  lemma SameId<T>(table: seq<Keyed<T>>, x: Keyed<T>, y: Keyed<T>)
    requires SortedById(table) && x in table && y in table && x.id == y.id
    ensures x == y
  {
  }
}
