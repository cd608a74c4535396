/**
 * The fee report (apps/api/src/modules/reports/report.service.ts): one pass over the instalments,
 * oldest first, that must agree with the fee ledger. Days are day numbers, amounts whole paise.
 */
module FeeReport {
  import opened FeeLedger
  import opened FeePlans
  import opened Optional

  /** One student with overdue money; the days are those of the oldest instalment that is overdue. */
  datatype Defaulter = Defaulter(student: nat, pending: int, dueDay: int, overdueDays: int)

  /** The percentage is in hundredths of a percent. */
  datatype Report = Report(
    expected: int, collected: int, waived: int, pending: int, overdue: int,
    percentage: Option<int>, defaulters: seq<Defaulter>)

  // ---------- What the report says, on its input ----------

  predicate IsOverdue(inst: Instalment, today: int) {
    && (inst.status == Pending || inst.status == Partial || inst.status == Status.Overdue)
    && inst.due < today
    && inst.amount - inst.paid > 0
  }

  /** Whose overdue money is added up. */
  datatype Who = Everyone | Only(student: nat)

  predicate Owes(inst: Instalment, today: int, who: Who) {
    IsOverdue(inst, today) && (who.Everyone? || who.student == inst.student)
  }

  function Owed(list: seq<Instalment>, today: int, who: Who): int {
    if list == [] then 0
    else
      var last := list[|list| - 1];
      Owed(list[..|list| - 1], today, who) + if Owes(last, today, who) then last.amount - last.paid else 0
  }

  /** The earliest day among a student's overdue instalments; today when there are none. */
  function OldestDue(list: seq<Instalment>, today: int, student: nat): int {
    if list == [] then today
    else
      var last := list[|list| - 1];
      var before := OldestDue(list[..|list| - 1], today, student);
      if Owes(last, today, Only(student)) && last.due < before then last.due else before
  }

  function Debtors(list: seq<Instalment>, today: int): set<nat> {
    if list == [] then {}
    else
      var last := list[|list| - 1];
      Debtors(list[..|list| - 1], today) + if IsOverdue(last, today) then {last.student} else {}
  }

  function Account(list: seq<Instalment>, today: int, student: nat): Defaulter {
    var due := OldestDue(list, today, student);
    Defaulter(student, Owed(list, today, Only(student)), due, today - due)
  }

  lemma {:induction false} NothingOwed(list: seq<Instalment>, today: int, student: nat)
    requires student !in Debtors(list, today)
    ensures Owed(list, today, Only(student)) == 0 && OldestDue(list, today, student) == today
  {
    if list != [] {
      NothingOwed(list[..|list| - 1], today, student);
    }
  }

  /** Debtors are the students with an overdue instalment, and the day in their account is its earliest. */
  lemma {:induction false} OldestDueIsEarliest(list: seq<Instalment>, today: int, student: nat)
    ensures student in Debtors(list, today) <==>
            exists j :: 0 <= j < |list| && Owes(list[j], today, Only(student))
                && list[j].due == OldestDue(list, today, student)
    ensures forall j :: 0 <= j < |list| && Owes(list[j], today, Only(student)) ==>
              OldestDue(list, today, student) <= list[j].due && student in Debtors(list, today)
    ensures OldestDue(list, today, student) <= today
  {
    if list != [] {
      var front, n := list[..|list| - 1], |list| - 1;
      OldestDueIsEarliest(front, today, student);
      if student in Debtors(front, today) {
        var j :| 0 <= j < |front| && Owes(front[j], today, Only(student))
            && front[j].due == OldestDue(front, today, student);
        assert list[j] == front[j];
      }
      if student !in Debtors(front, today) {
        NothingOwed(front, today, student);
      }
      assert Owes(list[n], today, Only(student)) ==> student in Debtors(list, today);
    }
  }

  predicate Distinct(ds: seq<Defaulter>) {
    ds == [] || (ds[0].student !in Students(ds[1..]) && Distinct(ds[1..]))
  }

  function Students(ds: seq<Defaulter>): set<nat> {
    if ds == [] then {} else {ds[0].student} + Students(ds[1..])
  }

  function SumPending(ds: seq<Defaulter>): int {
    if ds == [] then 0 else ds[0].pending + SumPending(ds[1..])
  }

  predicate AllAccounts(list: seq<Instalment>, today: int, ds: seq<Defaulter>) {
    ds == [] || (ds[0] == Account(list, today, ds[0].student) && AllAccounts(list, today, ds[1..]))
  }

  /** The order of the final list: larger amount first, then more days. */
  predicate Before(a: Defaulter, b: Defaulter) {
    a.pending > b.pending || (a.pending == b.pending && a.overdueDays >= b.overdueDays)
  }

  predicate Ordered(ds: seq<Defaulter>) {
    |ds| < 2 || (Before(ds[0], ds[1]) && Ordered(ds[1..]))
  }

  ghost predicate SortedByDue(list: seq<Instalment>) {
    forall i, j :: 0 <= i < j < |list| ==> list[i].due <= list[j].due
  }

  /** A share in hundredths of a percent, rounded half up; none when there is no whole. */
  function PercentOf(part: int, whole: int): Option<int> {
    if whole <= 0 then None else Some(RoundHalfUp(part as real / whole as real * 10000.0))
  }

  /** Every student with overdue money is listed once, with their account, in order. */
  ghost predicate ListsDefaulters(list: seq<Instalment>, today: int, ds: seq<Defaulter>) {
    Distinct(ds) && Students(ds) == Debtors(list, today) && AllAccounts(list, today, ds) && Ordered(ds)
  }

  ghost predicate Reports(plans: seq<int>, list: seq<Instalment>, today: int, r: Report) {
    && r.expected == SumOf(plans)
    && r.collected == Sum(PaidAmount, list)
    && r.waived == Sum(WaivedRest, list)
    && r.overdue == Owed(list, today, Everyone)
    && r.pending == Max0(r.expected - r.collected - r.waived)
    && r.percentage == PercentOf(r.collected, r.expected - r.waived)
    && ListsDefaulters(list, today, r.defaulters)
  }

  // ---------- The loop ----------

  /** What the loop has computed after the instalments in `done`. */
  datatype Tally = Tally(collected: int, waived: int, overdue: int, defaulters: map<nat, Defaulter>)

  ghost predicate Tallied(done: seq<Instalment>, today: int, t: Tally) {
    && t.collected == Sum(PaidAmount, done)
    && t.waived == Sum(WaivedRest, done)
    && t.overdue == Owed(done, today, Everyone)
    && t.defaulters.Keys == Debtors(done, today)
    && forall k :: k in t.defaulters ==> t.defaulters[k] == Account(done, today, k)
  }

  lemma SumNext(m: Measure, list: seq<Instalment>, x: Instalment)
    ensures Sum(m, list + [x]) == Sum(m, list) + Value(m, x)
  {
    SumAppend(m, list, [x]);
    assert [x][1..] == [];
  }

  /** One more instalment changes only its own student's account. */
  lemma AccountNext(done: seq<Instalment>, x: Instalment, today: int, k: nat)
    requires SortedByDue(done + [x])
    ensures Account(done + [x], today, k) ==
            if !Owes(x, today, Only(k)) then Account(done, today, k)
            else if k in Debtors(done, today)
            then Account(done, today, k).(pending := Account(done, today, k).pending + x.amount - x.paid)
            else Defaulter(k, x.amount - x.paid, x.due, today - x.due)
  {
    assert (done + [x])[..|done|] == done;
    if k in Debtors(done, today) {
      OldestDueIsEarliest(done, today, k);
      var j :| 0 <= j < |done| && Owes(done[j], today, Only(k)) && done[j].due == OldestDue(done, today, k);
      assert (done + [x])[j] == done[j] && (done + [x])[|done|] == x;
    } else {
      NothingOwed(done, today, k);
    }
  }

  /** One turn of the loop. */
  function Turn(t: Tally, x: Instalment, today: int): Tally {
    if !IsOverdue(x, today) then t.(collected := t.collected + x.paid, waived := t.waived + Value(WaivedRest, x))
    else
      var balance := x.amount - x.paid;
      var entry := if x.student in t.defaulters
                   then t.defaulters[x.student].(pending := t.defaulters[x.student].pending + balance)
                   else Defaulter(x.student, balance, x.due, today - x.due);
      Tally(t.collected + x.paid, t.waived, t.overdue + balance, t.defaulters[x.student := entry])
  }

  lemma TurnTallies(done: seq<Instalment>, x: Instalment, today: int, t: Tally)
    requires Tallied(done, today, t) && SortedByDue(done + [x])
    ensures Tallied(done + [x], today, Turn(t, x, today))
  {
    AmountsNext(done, x, today, t);
    KeysNext(done, x, today, t);
    EntriesNext(done, x, today, t);
  }

  lemma AmountsNext(done: seq<Instalment>, x: Instalment, today: int, t: Tally)
    requires Tallied(done, today, t)
    ensures var next := Turn(t, x, today);
            && next.collected == Sum(PaidAmount, done + [x]) && next.waived == Sum(WaivedRest, done + [x])
            && next.overdue == Owed(done + [x], today, Everyone)
  {
    SumNext(PaidAmount, done, x);
    SumNext(WaivedRest, done, x);
    assert (done + [x])[..|done|] == done;
  }

  lemma KeysNext(done: seq<Instalment>, x: Instalment, today: int, t: Tally)
    requires t.defaulters.Keys == Debtors(done, today)
    ensures Turn(t, x, today).defaulters.Keys == Debtors(done + [x], today)
  {
    assert (done + [x])[..|done|] == done;
  }

  lemma EntriesNext(done: seq<Instalment>, x: Instalment, today: int, t: Tally)
    requires Tallied(done, today, t) && SortedByDue(done + [x])
    ensures var next := Turn(t, x, today);
            forall k :: k in next.defaulters ==> next.defaulters[k] == Account(done + [x], today, k)
  {
    forall k | k in Turn(t, x, today).defaulters
      ensures Turn(t, x, today).defaulters[k] == Account(done + [x], today, k)
    {
      EntryNext(done, x, today, t, k);
    }
  }

  lemma EntryNext(done: seq<Instalment>, x: Instalment, today: int, t: Tally, k: nat)
    requires Tallied(done, today, t) && SortedByDue(done + [x]) && k in Turn(t, x, today).defaulters
    ensures Turn(t, x, today).defaulters[k] == Account(done + [x], today, k)
  {
    AccountNext(done, x, today, k);
  }

  lemma OrderNext(order: seq<nat>, keys: set<nat>, k: nat)
    requires InsertionOrder(order, keys) && k !in keys
    ensures InsertionOrder(order + [k], keys + {k})
  {
  }

  /** The body of the loop; a return is its `continue`. */
  method CountIn(t: Tally, order: seq<nat>, inst: Instalment, today: int) returns (next: Tally, list: seq<nat>)
    requires InsertionOrder(order, t.defaulters.Keys)
    ensures next == Turn(t, inst, today) && InsertionOrder(list, next.defaulters.Keys)
  {
    var balance := inst.amount - inst.paid;
    next, list := t.(collected := t.collected + inst.paid), order;
    if inst.status == Waived {
      next := next.(waived := t.waived + balance);
      return;
    }
    var unpaid := inst.status == Pending || inst.status == Partial || inst.status == Status.Overdue;
    if !unpaid || inst.due >= today || balance <= 0 {
      return;
    }
    next := next.(overdue := t.overdue + balance);
    if inst.student in t.defaulters {
      var existing := t.defaulters[inst.student];
      next := next.(defaulters := t.defaulters[inst.student := existing.(pending := existing.pending + balance)]);
      return;
    }
    OrderNext(order, t.defaulters.Keys, inst.student);
    var entry := Defaulter(inst.student, balance, inst.due, today - inst.due);
    next := next.(defaulters := t.defaulters[inst.student := entry]);
    list := order + [inst.student];
  }

  /** The loop over the instalments; the students with overdue money in the order they come up. */
  method TallyUp(installments: seq<Instalment>, today: int) returns (t: Tally, order: seq<nat>)
    requires SortedByDue(installments)
    ensures Tallied(installments, today, t) && InsertionOrder(order, t.defaulters.Keys)
  {
    t, order := Tally(0, 0, 0, map[]), [];
    for i := 0 to |installments|
      invariant Tallied(installments[..i], today, t)
      invariant InsertionOrder(order, t.defaulters.Keys)
    {
      assert installments[..i + 1] == installments[..i] + [installments[i]];
      TurnTallies(installments[..i], installments[i], today, t);
      t, order := CountIn(t, order, installments[i], today);
    }
    assert installments[..|installments|] == installments;
  }

  method GenerateFeeReport(plans: seq<int>, installments: seq<Instalment>, today: int) returns (r: Report)
    requires SortedByDue(installments)
    ensures Reports(plans, installments, today, r)
  {
    var expected := AddUp(plans);
    var t, order := TallyUp(installments, today);
    var sorted := SortDefaulters(installments, today, order, t.defaulters);
    var pending := expected - t.collected - t.waived;
    r := Report(expected, t.collected, t.waived, if pending < 0 then 0 else pending, t.overdue,
                PercentOf(t.collected, expected - t.waived), sorted);
  }

  // ---------- The sort ----------

  ghost predicate InsertionOrder(order: seq<nat>, keys: set<nat>) {
    && (forall k :: k in order <==> k in keys)
    && (forall i, j :: 0 <= i < j < |order| ==> order[i] != order[j])
  }

  function Insert(d: Defaulter, ds: seq<Defaulter>): seq<Defaulter> {
    if ds == [] || !Before(ds[0], d) then [d] + ds
    else [ds[0]] + Insert(d, ds[1..])
  }

  lemma {:induction false} InsertKeeps(d: Defaulter, ds: seq<Defaulter>, list: seq<Instalment>, today: int)
    requires Ordered(ds) && Distinct(ds) && d.student !in Students(ds)
    requires AllAccounts(list, today, ds) && d == Account(list, today, d.student)
    ensures Ordered(Insert(d, ds)) && Distinct(Insert(d, ds)) && AllAccounts(list, today, Insert(d, ds))
    ensures Students(Insert(d, ds)) == Students(ds) + {d.student}
  {
    assert ([d] + ds)[1..] == ds;
    if ds != [] && Before(ds[0], d) {
      InsertKeeps(d, ds[1..], list, today);
      var r := Insert(d, ds[1..]);
      assert ([ds[0]] + r)[1..] == r;
    }
  }

  /** The entries of the map in the order of the report. */
  method SortDefaulters(ghost list: seq<Instalment>, ghost today: int, order: seq<nat>, entries: map<nat, Defaulter>)
    returns (r: seq<Defaulter>)
    requires InsertionOrder(order, entries.Keys) && entries.Keys == Debtors(list, today)
    requires forall k :: k in entries ==> entries[k] == Account(list, today, k)
    ensures ListsDefaulters(list, today, r)
  {
    r := [];
    for i := 0 to |order|
      invariant Ordered(r) && Distinct(r) && AllAccounts(list, today, r)
      invariant forall k :: k in Students(r) <==> k in order[..i]
    {
      InsertKeeps(entries[order[i]], r, list, today);
      r := Insert(entries[order[i]], r);
      assert order[..i + 1] == order[..i] + [order[i]];
    }
    assert order[..|order|] == order;
  }

  // ---------- Agreement with the ledger ----------

  /** Among distinct accounts exactly one takes the new instalment's balance. */
  lemma {:induction false} ShareNext(done: seq<Instalment>, x: Instalment, today: int, ds: seq<Defaulter>)
    requires Distinct(ds)
    ensures SumOwed(done + [x], today, ds) == SumOwed(done, today, ds) +
            if IsOverdue(x, today) && x.student in Students(ds) then x.amount - x.paid else 0
  {
    if ds != [] {
      ShareNext(done, x, today, ds[1..]);
      assert (done + [x])[..|done|] == done;
    }
  }

  function SumOwed(list: seq<Instalment>, today: int, ds: seq<Defaulter>): int {
    if ds == [] then 0 else Owed(list, today, Only(ds[0].student)) + SumOwed(list, today, ds[1..])
  }

  /** What distinct students owe adds up to everything owed, once every debtor is among them. */
  lemma {:induction false} SharesAddUp(list: seq<Instalment>, today: int, ds: seq<Defaulter>)
    requires Distinct(ds) && Debtors(list, today) <= Students(ds)
    ensures SumOwed(list, today, ds) == Owed(list, today, Everyone)
  {
    if list == [] {
      NoShares(today, ds);
    } else {
      var front := list[..|list| - 1];
      SharesAddUp(front, today, ds);
      ShareNext(front, list[|list| - 1], today, ds);
      assert front + [list[|list| - 1]] == list;
    }
  }

  lemma {:induction false} NoShares(today: int, ds: seq<Defaulter>)
    ensures SumOwed([], today, ds) == 0
  {
    if ds != [] {
      NoShares(today, ds[1..]);
    }
  }

  lemma {:induction false} PendingIsOwed(list: seq<Instalment>, today: int, ds: seq<Defaulter>)
    requires AllAccounts(list, today, ds)
    ensures SumPending(ds) == SumOwed(list, today, ds)
  {
    if ds != [] {
      PendingIsOwed(list, today, ds[1..]);
    }
  }

  /** The instalments of live plans below plan `n`, in the order of the table. */
  function LiveOnes(list: seq<Instalment>, live: set<nat>, n: nat): seq<Instalment> {
    if list == [] then []
    else if list[0].plan in live && list[0].plan < n then [list[0]] + LiveOnes(list[1..], live, n)
    else LiveOnes(list[1..], live, n)
  }

  /** The final amounts of live plans among the first `n`. */
  function LivePlans(plans: seq<int>, live: set<nat>, n: nat): seq<int>
    requires n <= |plans|
  {
    if n == 0 then []
    else if n - 1 in live then LivePlans(plans, live, n - 1) + [plans[n - 1]]
    else LivePlans(plans, live, n - 1)
  }

  /** Both queries of the report: live plans, and their instalments sorted by due day. */
  ghost predicate Queried(s: Ledger, live: set<nat>, plans: seq<int>, list: seq<Instalment>) {
    && multiset(plans) == multiset(LivePlans(s.plans, live, |s.plans|))
    && multiset(list) == multiset(LiveOnes(s.instalments, live, |s.plans|))
    && SortedByDue(list)
  }

  lemma {:induction false} SumWithout(m: Measure, b: seq<Instalment>, i: nat)
    requires i < |b|
    ensures Sum(m, b) == Sum(m, b[..i] + b[i + 1..]) + Value(m, b[i])
  {
    SumAppend(m, b[..i], b[i + 1..]);
    SumAppend(m, b[..i], b[i..]);
    assert b == b[..i] + b[i..];
    assert b[i..][1..] == b[i + 1..];
  }

  lemma RemoveOne<T>(a: seq<T>, b: seq<T>) returns (i: nat)
    requires a != [] && multiset(a) == multiset(b)
    ensures i < |b| && b[i] == a[0] && multiset(a[1..]) == multiset(b[..i] + b[i + 1..])
  {
    assert a == [a[0]] + a[1..];
    assert a[0] in multiset(b);
    i :| 0 <= i < |b| && b[i] == a[0];
    assert b == b[..i] + [b[i]] + b[i + 1..];
    assert multiset(a[1..]) == multiset(a) - multiset{a[0]};
    assert multiset(b[..i] + b[i + 1..]) == multiset(b) - multiset{a[0]};
  }

  lemma {:induction false} SumPermuted(m: Measure, a: seq<Instalment>, b: seq<Instalment>)
    requires multiset(a) == multiset(b)
    ensures Sum(m, a) == Sum(m, b)
  {
    if a == [] {
      assert |multiset(b)| == 0;
    } else {
      var i := RemoveOne(a, b);
      SumPermuted(m, a[1..], b[..i] + b[i + 1..]);
      SumWithout(m, b, i);
    }
  }

  lemma {:induction false} SumOfAppend(a: seq<int>, b: seq<int>)
    ensures SumOf(a + b) == SumOf(a) + SumOf(b)
  {
    if a == [] {
      assert a + b == b;
    } else {
      assert (a + b)[1..] == a[1..] + b;
      SumOfAppend(a[1..], b);
    }
  }

  lemma {:induction false} SumOfPermuted(a: seq<int>, b: seq<int>)
    requires multiset(a) == multiset(b)
    ensures SumOf(a) == SumOf(b)
  {
    if a == [] {
      assert |multiset(b)| == 0;
    } else {
      var i := RemoveOne(a, b);
      SumOfPermuted(a[1..], b[..i] + b[i + 1..]);
      SumOfAppend(b[..i], b[i + 1..]);
      SumOfAppend(b[..i], b[i..]);
      assert b == b[..i] + b[i..];
      assert b[i..][1..] == b[i + 1..];
    }
  }

  lemma SumFirst(x: Instalment, rest: seq<Instalment>)
    ensures Sum(TotalAmount, [x] + rest) == x.amount + Sum(TotalAmount, rest)
  {
    assert ([x] + rest)[1..] == rest;
  }

  /** Counting one plan more adds that plan's own instalments, when it is live. */
  lemma {:induction false} LiveOnesNext(list: seq<Instalment>, live: set<nat>, n: nat)
    ensures Sum(TotalAmount, LiveOnes(list, live, n + 1)) ==
            Sum(TotalAmount, LiveOnes(list, live, n)) + if n in live then Sum(TotalAmount, OfPlan(list, n)) else 0
  {
    if list != [] {
      LiveOnesNext(list[1..], live, n);
      SumFirst(list[0], LiveOnes(list[1..], live, n));
      SumFirst(list[0], LiveOnes(list[1..], live, n + 1));
      SumFirst(list[0], OfPlan(list[1..], n));
    }
  }

  lemma {:induction false} NoLiveOnes(list: seq<Instalment>, live: set<nat>)
    ensures LiveOnes(list, live, 0) == []
  {
    if list != [] {
      NoLiveOnes(list[1..], live);
    }
  }

  lemma LivePlansNext(plans: seq<int>, live: set<nat>, n: nat)
    requires n < |plans|
    ensures SumOf(LivePlans(plans, live, n + 1)) == SumOf(LivePlans(plans, live, n)) + if n in live then plans[n] else 0
  {
    if n in live {
      SumOfAppend(LivePlans(plans, live, n), [plans[n]]);
    }
  }

  lemma {:induction false} ExpectedIsTotal(plans: seq<int>, list: seq<Instalment>, live: set<nat>, n: nat)
    requires forall p :: 0 <= p < |plans| ==> Sum(TotalAmount, OfPlan(list, p)) == plans[p]
    requires n <= |plans|
    ensures SumOf(LivePlans(plans, live, n)) == Sum(TotalAmount, LiveOnes(list, live, n))
  {
    if n == 0 {
      NoLiveOnes(list, live);
    } else {
      var m := n - 1;
      ExpectedIsTotal(plans, list, live, m);
      LiveOnesNext(list, live, m);
      LivePlansNext(plans, live, m);
      assert Sum(TotalAmount, OfPlan(list, m)) == plans[m];
    }
  }

  lemma {:induction false} LiveOnesAreOk(list: seq<Instalment>, live: set<nat>, n: nat)
    requires forall i :: 0 <= i < |list| ==> InstalmentOk(list[i])
    ensures forall i :: 0 <= i < |LiveOnes(list, live, n)| ==> InstalmentOk(LiveOnes(list, live, n)[i])
  {
    if list != [] {
      LiveOnesAreOk(list[1..], live, n);
    }
  }

  lemma RowsStayOk(rows: seq<Instalment>, list: seq<Instalment>)
    requires multiset(rows) == multiset(list) && forall i :: 0 <= i < |rows| ==> InstalmentOk(rows[i])
    ensures forall i :: 0 <= i < |list| ==> InstalmentOk(list[i])
  {
    forall i | 0 <= i < |list|
      ensures InstalmentOk(list[i])
    {
      assert list[i] in multiset(rows);
    }
  }

  /** The instalments of these students that were due before today. */
  function DueBefore(list: seq<Instalment>, today: int, who: Who): seq<Instalment> {
    if list == [] then []
    else
      var last := list[|list| - 1];
      DueBefore(list[..|list| - 1], today, who)
      + if last.due < today && (who.Everyone? || last.student == who.student) then [last] else []
  }

  /** No more is paid than is due, and PAID is fully paid; rows marked OVERDUE may occur. */
  predicate Sound(inst: Instalment) {
    0 <= inst.paid <= inst.amount && (inst.status == Paid ==> inst.paid == inst.amount)
  }

  /**
   * Measured by the ledger: what is overdue is the open balance of the instalments that were due
   * before today, for everyone and for each student, and the debtors are those who have some.
   */
  lemma {:induction false} OwedIsOpenBalance(list: seq<Instalment>, today: int, who: Who)
    requires forall i :: 0 <= i < |list| ==> Sound(list[i])
    ensures Owed(list, today, who) == Sum(OpenBalance, DueBefore(list, today, who)) >= 0
    ensures who.Only? ==> (who.student in Debtors(list, today) <==> Owed(list, today, who) > 0)
  {
    if list != [] {
      var front, x := list[..|list| - 1], list[|list| - 1];
      OwedIsOpenBalance(front, today, who);
      SumNext(OpenBalance, DueBefore(front, today, who), x);
      assert DueBefore(front, today, who) + [] == DueBefore(front, today, who);
    }
  }

  /** An entry of the list: the student's open balance, and the days since the earliest day of it. */
  ghost predicate IsMeasured(list: seq<Instalment>, today: int, d: Defaulter) {
    && d.pending == Sum(OpenBalance, DueBefore(list, today, Only(d.student)))
    && d.dueDay == OldestDue(list, today, d.student) && d.overdueDays == today - d.dueDay
  }

  lemma {:induction false} ListedAccounts(list: seq<Instalment>, today: int, ds: seq<Defaulter>)
    requires AllAccounts(list, today, ds) && forall i :: 0 <= i < |list| ==> Sound(list[i])
    ensures forall i :: 0 <= i < |ds| ==> IsMeasured(list, today, ds[i]) && ds[i].student in Students(ds)
  {
    if ds != [] {
      ListedAccounts(list, today, ds[1..]);
      OwedIsOpenBalance(list, today, Only(ds[0].student));
      assert forall i :: 0 < i < |ds| ==> ds[i] == ds[1..][i - 1];
    }
  }

  lemma {:induction false} OrderedThroughout(ds: seq<Defaulter>, i: nat, j: nat)
    requires Ordered(ds) && i < j < |ds|
    ensures ds[i].pending > ds[j].pending
            || (ds[i].pending == ds[j].pending && ds[i].overdueDays >= ds[j].overdueDays)
  {
    if i > 0 {
      OrderedThroughout(ds[1..], i - 1, j - 1);
    } else if j > 1 {
      OrderedThroughout(ds[1..], 0, j - 1);
    }
  }

  /**
   * In every reachable ledger, for any set of live plans and any day, the overdue total is the open
   * balance of all instalments due before today, and a student is listed exactly when some of it is
   * theirs: with that amount and the days since the earliest day of theirs.
   */
  lemma ReportMeasuresBalances(
    states: seq<Ledger>, actions: seq<Action>, n: nat, live: set<nat>,
    plans: seq<int>, list: seq<Instalment>, today: int, r: Report, student: nat)
    requires IsRun(states, actions) && n < |states|
    requires Queried(states[n], live, plans, list) && Reports(plans, list, today, r)
    ensures r.overdue == Sum(OpenBalance, DueBefore(list, today, Everyone))
    ensures student in Students(r.defaulters) <==> Sum(OpenBalance, DueBefore(list, today, Only(student))) > 0
    ensures forall i :: 0 <= i < |r.defaulters| ==>
              IsMeasured(list, today, r.defaulters[i]) && r.defaulters[i].student in Students(r.defaulters)
  {
    Reachable(states, actions, n);
    LiveOnesAreOk(states[n].instalments, live, |states[n].plans|);
    RowsStayOk(LiveOnes(states[n].instalments, live, |states[n].plans|), list);
    OwedIsOpenBalance(list, today, Everyone);
    OwedIsOpenBalance(list, today, Only(student));
    ListedAccounts(list, today, r.defaulters);
  }

  lemma {:induction false} OverdueWithinBalance(list: seq<Instalment>, today: int)
    requires forall i :: 0 <= i < |list| ==> InstalmentOk(list[i])
    ensures 0 <= Owed(list, today, Everyone) <= Sum(OpenBalance, list)
  {
    if list != [] {
      var front, x := list[..|list| - 1], list[|list| - 1];
      OverdueWithinBalance(front, today);
      assert front + [x] == list;
      SumNext(OpenBalance, front, x);
    }
  }

  lemma PercentInRange(part: int, whole: int)
    requires 0 <= part <= whole
    ensures PercentOf(part, whole).Some? <==> whole > 0
    ensures whole > 0 ==> 0 <= PercentOf(part, whole).value <= 10000
  {
    if whole > 0 {
      var share := part as real / whole as real;
      assert 0.0 <= share <= 1.0;
      assert 0.0 <= share * 10000.0 <= 10000.0;
    }
  }

  /** The percentage is the hundredth of a percent nearest to the share, the larger of two equally near ones. */
  lemma PercentIsNearest(part: int, whole: int)
    requires whole > 0
    ensures -whole < 2 * (PercentOf(part, whole).value * whole - 10000 * part) <= whole
  {
    var share, percent := part as real / whole as real, PercentOf(part, whole).value;
    Quotient(part as real, whole as real);
    Rounded(share * 10000.0);
    Product(percent, whole);
    Scaled(percent as real, share, whole as real, part as real, (percent * whole) as real);
    InWhole(percent * whole, 10000 * part, whole);
  }

  lemma InWhole(a: int, b: int, w: int)
    requires -(w as real) < 2.0 * (a as real - b as real) <= w as real
    ensures -w < 2 * (a - b) <= w
  {
  }

  lemma Quotient(part: real, w: real)
    requires w > 0.0
    ensures part / w * w == part
  {
  }

  lemma Rounded(x: real)
    ensures -0.5 < RoundHalfUp(x) as real - x <= 0.5
  {
  }

  lemma Product(a: int, b: int)
    ensures (a * b) as real == a as real * b as real
  {
  }

  lemma Scaled(percent: real, share: real, w: real, part: real, product: real)
    requires w > 0.0 && -0.5 < percent - share * 10000.0 <= 0.5
    requires share * w == part && percent * w == product
    ensures -w < 2.0 * (product - 10000.0 * part) <= w
  {
    var gap := percent - share * 10000.0;
    Stretched(gap, w);
    calc {
      gap * w;
      percent * w - share * 10000.0 * w;
      percent * w - 10000.0 * (share * w);
      product - 10000.0 * part;
    }
  }

  lemma Stretched(gap: real, w: real)
    requires w > 0.0 && -0.5 < gap <= 0.5
    ensures -w < 2.0 * (gap * w) <= w
  {
    assert (gap + 0.5) * w > 0.0;
    assert (0.5 - gap) * w >= 0.0;
  }

  /**
   * In every reachable ledger, for any set of live plans and any day, the report conserves money:
   * expected = collected + waived + pending with the clamp idle, the defaulters' amounts add up to
   * the overdue total, which is part of the pending money, and the percentage lies in 0..100.
   */
  lemma ReportAgreesWithLedger(
    states: seq<Ledger>, actions: seq<Action>, n: nat, live: set<nat>,
    plans: seq<int>, list: seq<Instalment>, today: int, r: Report)
    requires IsRun(states, actions) && n < |states|
    requires Queried(states[n], live, plans, list) && Reports(plans, list, today, r)
    ensures r.expected == r.collected + r.waived + r.pending
    ensures 0 <= r.collected && 0 <= r.waived
    ensures SumPending(r.defaulters) == r.overdue && 0 <= r.overdue <= r.pending
    ensures r.percentage.None? <==> r.expected == r.waived
    ensures r.percentage.Some? ==> 0 <= r.percentage.value <= 10000
  {
    var s := states[n];
    var rows := LiveOnes(s.instalments, live, |s.plans|);
    Reachable(states, actions, n);
    PlansReachable(states, actions, n);
    ExpectedIsTotal(s.plans, s.instalments, live, |s.plans|);
    SumOfPermuted(plans, LivePlans(s.plans, live, |s.plans|));
    SumPermuted(TotalAmount, list, rows);
    LiveOnesAreOk(s.instalments, live, |s.plans|);
    RowsStayOk(rows, list);
    SumsSplit(list);
    OverdueWithinBalance(list, today);
    SharesAddUp(list, today, r.defaulters);
    PendingIsOwed(list, today, r.defaulters);
    PercentInRange(r.collected, r.expected - r.waived);
  }
}
