/**
 * Three rules for "has this subscription lapsed": the access gate
 * (apps/api/src/common/decorators/require-feature.decorator.ts), the reported status
 * (apps/api/src/modules/billing/subscription-status.ts) and the daily scan
 * (apps/api/src/modules/billing/billing.cron.ts).
 */
module SubscriptionAccess {
  import opened Billing
  import opened Calendar
  import opened Optional

  // ---------- The three rules ----------

  /** Until when a subscription gives access. */
  function AccessUntil(sub: Subscription): int {
    if sub.status == Trialing then sub.trialEndsAt
    else if sub.graceEndsAt.Some? then sub.graceEndsAt.value
    else sub.periodEnd
  }

  datatype Access = Allowed(trialing: bool) | NoActiveSubscription | TrialExpired | SubscriptionExpired

  /** `evaluateSubscriptionAccess` */
  function Gate(sub: Option<Subscription>, now: int): Access {
    if sub.None? then NoActiveSubscription
    else if sub.value.status == Expired || sub.value.status == Cancelled then SubscriptionExpired
    else if now > AccessUntil(sub.value) then
      if sub.value.status == Trialing then TrialExpired else SubscriptionExpired
    else Allowed(sub.value.status == Trialing)
  }

  /** Days up to an instant, a started one counted whole, none below zero. */
  function DaysRemaining(end: int, now: int): int {
    var days := -((now - end) / MS_PER_DAY);
    if days < 0 then 0 else days
  }

  /** `effectiveSubscription` */
  function EffectiveStatus(sub: Subscription, now: int): SubscriptionStatus {
    if AccessUntil(sub) <= now && (sub.status == Trialing || sub.status == Active || sub.status == Grace
        || sub.status == PastDue)
    then Expired
    else sub.status
  }

  /** The scan looks at a trial's end or the end of the paid period, never at a grace period. */
  function ScanEnd(sub: Subscription): int {
    if sub.status == Trialing then sub.trialEndsAt else sub.periodEnd
  }

  predicate Listed(sub: Subscription, threshold: int) {
    (sub.status == Trialing && sub.trialEndsAt <= threshold) || (sub.status == Active && sub.periodEnd <= threshold)
  }

  /** The row after a scan at `now`. */
  function Scanned(sub: Subscription, now: int): Subscription {
    if Listed(sub, now + 7 * MS_PER_DAY) && DaysRemaining(ScanEnd(sub), now) == 0 then sub.(status := Expired) else sub
  }

  lemma NoDaysLeft(end: int, now: int)
    ensures DaysRemaining(end, now) == 0 <==> end <= now
  {
  }

  /** Days are counted up: as many whole days as it takes to reach the end. */
  lemma DaysReachTheEnd(end: int, now: int)
    requires now < end
    ensures end - now <= DaysRemaining(end, now) * 86_400_000 < end - now + 86_400_000
  {
  }

  /** Which answer the gate gives: the reason of a refusal goes with the status, not with the instant alone. */
  lemma GateReasons(sub: Option<Subscription>, now: int)
    ensures Gate(sub, now) == NoActiveSubscription <==> sub.None?
    ensures sub.Some? && (sub.value.status == Expired || sub.value.status == Cancelled) ==>
              Gate(sub, now) == SubscriptionExpired
    ensures sub.Some? && sub.value.status == Trialing ==>
              Gate(sub, now) == if now <= sub.value.trialEndsAt then Allowed(true) else TrialExpired
    ensures sub.Some? && (sub.value.status == Active || sub.value.status == PastDue || sub.value.status == Grace) ==>
              var end := if sub.value.graceEndsAt.Some? then sub.value.graceEndsAt.value else sub.value.periodEnd;
              Gate(sub, now) == if now <= end then Allowed(false) else SubscriptionExpired
  {
  }

  /** Gate and status agree at every instant but one: at its exact end the gate still allows what is already EXPIRED. */
  lemma GateAgreesWithStatus(sub: Subscription, now: int)
    ensures (Gate(Some(sub), now).Allowed?
        <==> EffectiveStatus(sub, now) != Expired && EffectiveStatus(sub, now) != Cancelled)
            <==> !(now == AccessUntil(sub) && sub.status != Expired && sub.status != Cancelled)
  {
  }

  /**
   * The scan expires a running subscription exactly when its status is already EXPIRED, unless a
   * grace period lies in between.
   */
  lemma ScanAgreesWithStatus(sub: Subscription, now: int)
    requires sub.status == Trialing || sub.status == Active
    ensures Scanned(sub, now).status == EffectiveStatus(sub, now)
            <==> sub.status == Trialing || (AccessUntil(sub) <= now <==> sub.periodEnd <= now)
  {
    NoDaysLeft(ScanEnd(sub), now);
  }

  // ---------- Scans over a subscription's life ----------

  datatype State = State(now: int, sub: Option<Subscription>)

  datatype Action =
    | Tick(ms: nat)
    | Settles(purchase: Purchase, paidAt: nat)  // an upgrade order is settled
    | Scan

  predicate Enabled(x: Action) {
    x.Settles? ==> x.purchase.PlanUpgrade?
  }

  function Apply(s: State, x: Action, zone: int): State
    requires Enabled(x)
  {
    match x
    case Tick(ms) => s.(now := s.now + ms)
    case Settles(purchase, paidAt) =>
      s.(sub := Some(Renewed(s.sub, purchase, PeriodStart(s.sub, paidAt), paidAt, zone)))
    case Scan => if s.sub.Some? then s.(sub := Some(Scanned(s.sub.value, s.now))) else s
  }

  ghost predicate AllEnabled(actions: seq<Action>) {
    forall i :: 0 <= i < |actions| ==> Enabled(actions[i])
  }

  /** The state after these actions; with `scans` off, as if the scan had never run. */
  ghost function After(s: State, actions: seq<Action>, scans: bool, zone: int): State
    requires AllEnabled(actions)
  {
    if actions == [] then s
    else
      var before, last := After(s, actions[..|actions| - 1], scans, zone), actions[|actions| - 1];
      if last.Scan? && !scans then before else Apply(before, last, zone)
  }

  /** A subscription as it is created: a trial, or none yet. */
  ghost predicate Fresh(s: State) {
    s.sub.Some? ==> s.sub.value.status == Trialing && s.sub.value.graceEndsAt == None
  }

  /** Statuses in use: nothing sets a grace period, PAST_DUE, GRACE or CANCELLED. */
  lemma {:induction false} ReachableStatus(s: State, actions: seq<Action>, scans: bool, zone: int)
    requires Fresh(s) && AllEnabled(actions)
    ensures var t := After(s, actions, scans, zone);
            t.sub.Some? ==>
              && t.sub.value.graceEndsAt == None
              && (t.sub.value.status == Trialing || t.sub.value.status == Active || t.sub.value.status == Expired)
              && (!scans ==> t.sub.value.status != Expired)
  {
    if actions != [] {
      ReachableStatus(s, actions[..|actions| - 1], scans, zone);
    }
  }

  predicate AtEnd(s: State, t: int) {
    s.sub.Some? && t == AccessUntil(s.sub.value)
  }

  /** The gate answers alike, now and ever after; only at the present instant an exact end may differ. */
  ghost predicate SameAnswers(a: State, b: State) {
    && a.now == b.now
    && forall t :: t > a.now || (t == a.now && !AtEnd(a, t) && !AtEnd(b, t)) ==>
         (Gate(a.sub, t).Allowed? <==> Gate(b.sub, t).Allowed?)
  }

  /** A payment made in an ACTIVE period that has ended by the time it is settled. */
  predicate Late(s: State, paidAt: nat) {
    s.sub.Some? && s.sub.value.status == Active && paidAt < s.sub.value.periodEnd <= s.now
  }

  /** The end a settlement gives the period. */
  function NewEnd(s: State, x: Action, zone: int): int
    requires x.Settles? && Enabled(x)
  {
    PeriodEnd(PeriodStart(s.sub, x.paidAt), x.purchase.cycle, zone)
  }

  /** A late settlement whose two ends, with scans and without, differ and have not both passed. */
  predicate Harmful(a: State, b: State, x: Action, zone: int)
    requires Enabled(x)
  {
    && x.Settles? && (Late(a, x.paidAt) || Late(b, x.paidAt))
    && NewEnd(a, x, zone) != NewEnd(b, x, zone)
    && (NewEnd(a, x, zone) > a.now || NewEnd(b, x, zone) > b.now)
  }

  ghost predicate HarmfulAt(s: State, actions: seq<Action>, i: nat, zone: int)
    requires i < |actions| && AllEnabled(actions)
  {
    Harmful(After(s, actions[..i], true, zone), After(s, actions[..i], false, zone), actions[i], zone)
  }

  predicate Over(s: State) {
    s.sub.Some? && (s.sub.value.status == Expired || AccessUntil(s.sub.value) <= s.now)
  }

  /** With scans the row runs to the same end, or it is over in both. */
  ghost predicate Agree(a: State, b: State) {
    && a.now == b.now && a.sub.Some? == b.sub.Some?
    && (a.sub.Some? && !(Over(a) && Over(b)) ==>
          && a.sub.value.status == b.sub.value.status
          && AccessUntil(a.sub.value) == AccessUntil(b.sub.value))
  }

  ghost predicate InUse(s: State) {
    s.sub.Some? ==>
      && s.sub.value.graceEndsAt == None
      && (s.sub.value.status == Trialing || s.sub.value.status == Active || s.sub.value.status == Expired)
  }

  /**
   * One step, with scans and without: agreement is kept, and the answers stay the same, exactly
   * unless it is harmful.
   */
  lemma StepAgrees(a: State, b: State, x: Action, zone: int)
    requires InUse(a) && InUse(b) && Agree(a, b) && Enabled(x)
    ensures var a', b' := Apply(a, x, zone), if x.Scan? then b else Apply(b, x, zone);
            && (!Harmful(a, b, x, zone) ==> Agree(a', b'))
            && (Harmful(a, b, x, zone) ==> !SameAnswers(a', b'))
  {
    match x
    case Tick(_) =>
    case Settles(purchase, paidAt) =>
      if Harmful(a, b, x, zone) {
        var a', b' := Apply(a, x, zone), Apply(b, x, zone);
        var t := if NewEnd(a, x, zone) > NewEnd(b, x, zone) then NewEnd(a, x, zone) else NewEnd(b, x, zone);
        assert Gate(a'.sub, t).Allowed? != Gate(b'.sub, t).Allowed?;
      }
    case Scan =>
      if a.sub.Some? {
        NoDaysLeft(ScanEnd(a.sub.value), a.now);
      }
  }

  lemma {:induction false} AgreesUpTo(s: State, actions: seq<Action>, zone: int, n: nat)
    requires Fresh(s) && AllEnabled(actions) && n <= |actions|
    requires forall i :: 0 <= i < n ==> !HarmfulAt(s, actions, i, zone)
    ensures Agree(After(s, actions[..n], true, zone), After(s, actions[..n], false, zone))
  {
    if n > 0 {
      AgreesUpTo(s, actions, zone, n - 1);
      assert actions[..n][..n - 1] == actions[..n - 1];
      ReachableStatus(s, actions[..n - 1], true, zone);
      ReachableStatus(s, actions[..n - 1], false, zone);
      assert !HarmfulAt(s, actions, n - 1, zone);
      StepAgrees(After(s, actions[..n - 1], true, zone), After(s, actions[..n - 1], false, zone), actions[n - 1], zone);
    }
  }

  /** After the first `n` actions the scans have made no difference to the gate. */
  ghost predicate SameAt(s: State, actions: seq<Action>, n: nat, zone: int)
    requires n <= |actions| && AllEnabled(actions)
  {
    SameAnswers(After(s, actions[..n], true, zone), After(s, actions[..n], false, zone))
  }

  lemma FirstHarmIsSeen(s: State, actions: seq<Action>, zone: int, i: nat)
    requires Fresh(s) && AllEnabled(actions) && i < |actions| && HarmfulAt(s, actions, i, zone)
    requires forall j :: 0 <= j < i ==> !HarmfulAt(s, actions, j, zone)
    ensures !SameAt(s, actions, i + 1, zone)
  {
    AgreesUpTo(s, actions, zone, i);
    ReachableStatus(s, actions[..i], true, zone);
    ReachableStatus(s, actions[..i], false, zone);
    StepAgrees(After(s, actions[..i], true, zone), After(s, actions[..i], false, zone), actions[i], zone);
    assert actions[..i + 1][..i] == actions[..i];
  }

  lemma {:induction false} HarmIsSeen(s: State, actions: seq<Action>, zone: int, i: nat)
    requires Fresh(s) && AllEnabled(actions) && i < |actions| && HarmfulAt(s, actions, i, zone)
    ensures exists n :: 0 <= n <= |actions| && !SameAt(s, actions, n, zone)
  {
    if forall j :: 0 <= j < i ==> !HarmfulAt(s, actions, j, zone) {
      FirstHarmIsSeen(s, actions, zone, i);
    } else {
      var j: nat :| j < i && HarmfulAt(s, actions, j, zone);
      HarmIsSeen(s, actions, zone, j);
    }
  }

  lemma AgreementIsSeen(s: State, actions: seq<Action>, zone: int, n: nat)
    requires Fresh(s) && AllEnabled(actions) && n <= |actions|
    requires forall i :: 0 <= i < n ==> !HarmfulAt(s, actions, i, zone)
    ensures SameAt(s, actions, n, zone)
  {
    AgreesUpTo(s, actions, zone, n);
    ReachableStatus(s, actions[..n], true, zone);
    ReachableStatus(s, actions[..n], false, zone);
  }

  /**
   * Over any life of a subscription, running the scan any number of times changes none of the
   * gate's answers, at any time, if and only if no settlement is harmful.
   */
  lemma ScansKeepAccess(s: State, actions: seq<Action>, zone: int)
    requires Fresh(s) && AllEnabled(actions)
    ensures (forall n :: 0 <= n <= |actions| ==> SameAt(s, actions, n, zone))
            <==> (forall i :: 0 <= i < |actions| ==> !HarmfulAt(s, actions, i, zone))
  {
    if forall i :: 0 <= i < |actions| ==> !HarmfulAt(s, actions, i, zone) {
      forall n: nat | n <= |actions|
        ensures SameAt(s, actions, n, zone)
      {
        AgreementIsSeen(s, actions, zone, n);
      }
    } else {
      var i: nat :| i < |actions| && HarmfulAt(s, actions, i, zone);
      HarmIsSeen(s, actions, zone, i);
    }
  }

  /** The scan at step `k` wrote EXPIRED. */
  ghost predicate WroteExpired(s: State, actions: seq<Action>, k: nat, zone: int)
    requires k < |actions| && AllEnabled(actions)
  {
    && actions[k] == Scan
    && After(s, actions[..k + 1], true, zone).sub != After(s, actions[..k], true, zone).sub
  }

  lemma {:induction false} IdleScans(s: State, actions: seq<Action>, zone: int, n: nat)
    requires AllEnabled(actions) && n <= |actions|
    requires forall k :: 0 <= k < n ==> !WroteExpired(s, actions, k, zone)
    ensures After(s, actions[..n], true, zone) == After(s, actions[..n], false, zone)
  {
    if n > 0 {
      IdleScans(s, actions, zone, n - 1);
      assert actions[..n][..n - 1] == actions[..n - 1];
      assert !WroteExpired(s, actions, n - 1, zone);
    }
  }

  /** Only a settlement that comes after a scan has written EXPIRED can be harmful. */
  lemma HarmNeedsExpiry(s: State, actions: seq<Action>, zone: int, i: nat)
    requires AllEnabled(actions) && i < |actions| && HarmfulAt(s, actions, i, zone)
    ensures exists k :: 0 <= k < i && WroteExpired(s, actions, k, zone)
  {
    if forall k :: 0 <= k < i ==> !WroteExpired(s, actions, k, zone) {
      IdleScans(s, actions, zone, i);
    }
  }

  /** Two running periods give the gate the same later answers exactly when they end alike or are both over. */
  lemma EndsCompared(a: Option<Subscription>, b: Option<Subscription>, now: int)
    requires a.Some? && b.Some? && a.value.status == b.value.status == Active
    ensures var e, f := AccessUntil(a.value), AccessUntil(b.value);
            (forall t :: t > now ==> (Gate(a, t).Allowed? <==> Gate(b, t).Allowed?))
                <==> e == f || (e <= now && f <= now)
  {
    var e, f := AccessUntil(a.value), AccessUntil(b.value);
    var t := if e > f then e else f;
    assert e != f ==> Gate(a, t).Allowed? != Gate(b, t).Allowed?;
  }

  lemma ScanThenSettle(s: State, x: Action, zone: int)
    requires x.Settles? && x.purchase.PlanUpgrade? && Late(s, x.paidAt)
    ensures var a, b := After(s, [Scan, x], true, zone), After(s, [Scan, x], false, zone);
            && a.now == b.now == s.now && a.sub.Some? && b.sub.Some?
            && a.sub.value.status == b.sub.value.status == Active
            && AccessUntil(a.sub.value) == PeriodEnd(x.paidAt, x.purchase.cycle, zone)
            && AccessUntil(b.sub.value) == PeriodEnd(s.sub.value.periodEnd, x.purchase.cycle, zone)
  {
    NoDaysLeft(ScanEnd(s.sub.value), s.now);
    assert [Scan, x][..1] == [Scan] && [Scan][..0] == [];
    assert After(s, [], true, zone) == s && After(s, [], false, zone) == s;
    assert After(s, [Scan], true, zone) == Apply(s, Scan, zone) && After(s, [Scan], false, zone) == s;
  }

  /**
   * Settled after a scan, a late payment starts its period at the payment instead of the old end.
   * The gate's later answers are the same if and only if both ways give one end, or ends that have
   * both passed already.
   */
  lemma LateSettlementAfterScan(s: State, purchase: Purchase, paidAt: nat, zone: int)
    requires purchase.PlanUpgrade? && Late(s, paidAt)
    ensures var x := Settles(purchase, paidAt);
            var a, b := After(s, [Scan, x], true, zone), After(s, [Scan, x], false, zone);
            var e, f := PeriodEnd(paidAt, purchase.cycle, zone), PeriodEnd(s.sub.value.periodEnd, purchase.cycle, zone);
            (forall t :: t > s.now ==> (Gate(a.sub, t).Allowed? <==> Gate(b.sub, t).Allowed?))
            <==> e == f || (e <= s.now && f <= s.now)
  {
    var x := Settles(purchase, paidAt);
    ScanThenSettle(s, x, zone);
    EndsCompared(After(s, [Scan, x], true, zone).sub, After(s, [Scan, x], false, zone).sub, s.now);
  }

  /**
   * For monthly plans the scan can end access earlier or later: later exactly when the payment came
   * in a month longer than the one the old period ended in, by more than the time between them, as
   * setMonth rolls over; alike exactly when by just that time; and earlier otherwise.
   */
  lemma ScanShortensOrLengthens(s: State, plan: nat, paidAt: nat, zone: int)
    requires Late(s, paidAt)
    ensures var x := Settles(PlanUpgrade(plan, Monthly), paidAt);
            var a, b := After(s, [Scan, x], true, zone).sub, After(s, [Scan, x], false, zone).sub;
            a.Some? && b.Some? && Compared(a, b, paidAt, s.sub.value.periodEnd, zone)
  {
    var x := Settles(PlanUpgrade(plan, Monthly), paidAt);
    ScanThenSettle(s, x, zone);
    var a, b := After(s, [Scan, x], true, zone).sub, After(s, [Scan, x], false, zone).sub;
    EndsTell(a, b, paidAt, s.sub.value.periodEnd, zone);
  }

  lemma EndsTell(a: Option<Subscription>, b: Option<Subscription>, paidAt: int, oldEnd: int, zone: int)
    requires a.Some? && b.Some? && a.value.status == b.value.status == Active
    requires AccessUntil(a.value) == PeriodEnd(paidAt, Monthly, zone)
    requires AccessUntil(b.value) == PeriodEnd(oldEnd, Monthly, zone)
    ensures Compared(a, b, paidAt, oldEnd, zone)
  {
    EarlierEndsLater(paidAt, oldEnd, zone);
  }

  /** How the subscription with the scan ends, compared to the one without, and an instant at which the gate tells. */
  ghost predicate Compared(a: Option<Subscription>, b: Option<Subscription>, paidAt: int, oldEnd: int, zone: int)
    requires a.Some? && b.Some?
  {
    var e, f := AccessUntil(a.value), AccessUntil(b.value);
    && (e > f <==> oldEnd - paidAt < LongerBy(paidAt, oldEnd, zone))
    && (e == f <==> oldEnd - paidAt == LongerBy(paidAt, oldEnd, zone))
    && (e > f ==> Gate(a, e).Allowed? && !Gate(b, e).Allowed?)
    && (e < f ==> !Gate(a, f).Allowed? && Gate(b, f).Allowed?)
  }

  /** ACTIVE to the end of a day number, and looked at right then. */
  function EndingOn(day: nat): State {
    State.State(day * MS_PER_DAY, Some(Subscription(0, Active, 0, 0, day * MS_PER_DAY, None)))
  }

  lemma DayOf1970(day: nat)
    requires day < 59
    ensures DaysInMonth(Civil(day)) == if day < 31 then 31 else 28
  {
    assert MonthOffset(false, 1) == 31;
    CivilUnique(if day < 31 then Date(1970, 0, day + 1) else Date(1970, 1, day - 30));
  }

  lemma MonthFromDay(from: int, day: int)
    requires from == day * MS_PER_DAY
    ensures PeriodEnd(from, Monthly, 0) == from + DaysInMonth(Civil(day)) * MS_PER_DAY
  {
    assert LocalDay(from, 0) == day;
    PeriodLength(from, Monthly, 0);
  }

  lemma MonthFrom1970(day: nat)
    requires day < 59
    ensures PeriodEnd(day * MS_PER_DAY, Monthly, 0) == (day + if day < 31 then 31 else 28) * MS_PER_DAY
  {
    DayOf1970(day);
    MonthFromDay(day * MS_PER_DAY, day);
  }

  /**
   * A monthly plan paid on day `paid` of 1970 and settled at the end of the old period, right after
   * a scan or without one.
   */
  ghost function LateMonth(end: nat, paid: nat, scans: bool): State {
    After(EndingOn(end), [Scan, Settles(PlanUpgrade(0, Monthly), paid * MS_PER_DAY)], scans, 0)
  }

  lemma LateMonthEnds(end: nat, paid: nat, scans: bool)
    requires paid < end < 59
    ensures var t, from := LateMonth(end, paid, scans), if scans then paid else end;
            && t.sub.Some? && t.sub.value.status == Active
            && AccessUntil(t.sub.value) == (from + if from < 31 then 31 else 28) * MS_PER_DAY
  {
    MonthFrom1970(paid);
    MonthFrom1970(end);
    ScanThenSettle(EndingOn(end), Settles(PlanUpgrade(0, Monthly), paid * MS_PER_DAY), 0);
  }

  /**
   * All three happen in early 1970: access ends earlier, except for a payment in January for a
   * period that ended in February, which ends alike on the third day after the payment and later
   * before it; a month from 31 January rolls over to 3 March, one from 1 February ends on 1 March.
   */
  lemma ScanIn1970(end: nat, paid: nat)
    requires paid < end < 59
    ensures LateMonth(end, paid, true).sub.Some? && LateMonth(end, paid, false).sub.Some?
    ensures var a, b := LateMonth(end, paid, true).sub, LateMonth(end, paid, false).sub;
            var e, f := AccessUntil(a.value), AccessUntil(b.value);
            && (e > f <==> paid < 31 <= end < paid + 3) && (e == f <==> paid < 31 <= end == paid + 3)
            && (e > f ==> Gate(a, e).Allowed? && !Gate(b, e).Allowed?)
            && (e < f ==> !Gate(a, f).Allowed? && Gate(b, f).Allowed?)
  {
    LateMonthEnds(end, paid, true);
    LateMonthEnds(end, paid, false);
  }

  // ---------- The scan's two steps ----------

  /**
   * The scan reads its list first and writes EXPIRED later, whatever the row has become. Such a
   * write at `now` leaves the gate's later answers alone exactly when the row had lapsed by then.
   */
  lemma WriteIsHarmless(sub: Subscription, now: int)
    ensures (forall t :: t > now ==> (Gate(Some(sub.(status := Expired)), t).Allowed? <==> Gate(Some(sub), t).Allowed?))
            <==> sub.status == Expired || sub.status == Cancelled || AccessUntil(sub) <= now
  {
    if sub.status != Expired && sub.status != Cancelled && AccessUntil(sub) > now {
      assert Gate(Some(sub), AccessUntil(sub)).Allowed?;
    }
  }

  /** So a renewal settled between the two steps is undone by the write: paid, and locked out. */
  lemma RenewalIsLockedOut(sub: Subscription, purchase: Purchase, now: nat, zone: int)
    requires purchase.PlanUpgrade? && (sub.status == Trialing || sub.status == Active) && ScanEnd(sub) <= now
    ensures Scanned(sub, now).status == Expired
    ensures var renewed := Renewed(Some(sub), purchase, PeriodStart(Some(sub), now), now, zone);
            && Gate(Some(renewed), now).Allowed? && AccessUntil(renewed) > now
            && !Gate(Some(renewed.(status := Expired)), now).Allowed?
  {
    NoDaysLeft(ScanEnd(sub), now);
    PeriodLength(now, purchase.cycle, zone);
  }

  // ---------- The scan as it runs ----------

  /** An announcement: which subscription, and how many days are left. */
  datatype Notice = Notice(id: nat, days: int)

  /** `findExpiringSubscriptions`: the rows to look at, among the first `n`. */
  function ListedIds(subs: seq<Subscription>, threshold: int, n: nat): (ids: seq<nat>)
    requires n <= |subs|
    ensures forall i :: 0 <= i < |ids| ==> ids[i] < n
  {
    if n == 0 then []
    else if Listed(subs[n - 1], threshold) then ListedIds(subs, threshold, n - 1) + [n - 1]
    else ListedIds(subs, threshold, n - 1)
  }

  /** Each listed row is there once, and no other. */
  lemma {:induction false} ListedIdsOnce(subs: seq<Subscription>, threshold: int, n: nat)
    requires n <= |subs|
    ensures var ids := ListedIds(subs, threshold, n);
            && (forall j :: j in ids <==> 0 <= j < n && Listed(subs[j], threshold))
            && (forall i, j :: 0 <= i < j < |ids| ==> ids[i] != ids[j])
  {
    if n > 0 {
      ListedIdsOnce(subs, threshold, n - 1);
    }
  }

  /** The announcements for these rows: at the end, and 1, 3 and 7 days before it. */
  function Notices(subs: seq<Subscription>, ids: seq<nat>, now: int): seq<Notice>
    requires forall i :: 0 <= i < |ids| ==> ids[i] < |subs|
  {
    if ids == [] then []
    else
      var id := ids[|ids| - 1];
      var days := DaysRemaining(ScanEnd(subs[id]), now);
      Notices(subs, ids[..|ids| - 1], now) +
      if days == 0 || days == 1 || days == 3 || days == 7 then [Notice(id, days)] else []
  }

  /** A row's own notice, when it is one of those days. */
  predicate Announced(sub: Subscription, now: int, days: int) {
    var end := if sub.status == Trialing then sub.trialEndsAt else sub.periodEnd;
    && (sub.status == Trialing || sub.status == Active)
    && ((days == 0 && end <= now)
        || ((days == 1 || days == 3 || days == 7) && now + (days - 1) * MS_PER_DAY < end <= now + days * MS_PER_DAY))
  }

  lemma DayOfNotice(sub: Subscription, now: int, days: int)
    ensures Announced(sub, now, days) <==>
            && Listed(sub, now + 7 * MS_PER_DAY)
            && DaysRemaining(ScanEnd(sub), now) == days && (days == 0 || days == 1 || days == 3 || days == 7)
  {
    NoDaysLeft(ScanEnd(sub), now);
    if ScanEnd(sub) > now {
      DaysReachTheEnd(ScanEnd(sub), now);
    }
  }

  lemma {:induction false} NoticesOf(subs: seq<Subscription>, ids: seq<nat>, now: int, id: nat, days: int)
    requires forall i :: 0 <= i < |ids| ==> ids[i] < |subs|
    ensures Notice(id, days) in Notices(subs, ids, now) <==>
            && id in ids && DaysRemaining(ScanEnd(subs[id]), now) == days
            && (days == 0 || days == 1 || days == 3 || days == 7)
  {
    if ids != [] {
      NoticesOf(subs, ids[..|ids| - 1], now, id, days);
      assert ids == ids[..|ids| - 1] + [ids[|ids| - 1]];
    }
  }

  lemma {:induction false} NoticesOnce(subs: seq<Subscription>, ids: seq<nat>, now: int)
    requires forall i :: 0 <= i < |ids| ==> ids[i] < |subs|
    requires forall i, j :: 0 <= i < j < |ids| ==> ids[i] != ids[j]
    ensures forall i, j :: 0 <= i < j < |Notices(subs, ids, now)| ==>
              Notices(subs, ids, now)[i].id != Notices(subs, ids, now)[j].id
    ensures forall i :: 0 <= i < |Notices(subs, ids, now)| ==> Notices(subs, ids, now)[i].id in ids
  {
    if ids != [] {
      NoticesOnce(subs, ids[..|ids| - 1], now);
    }
  }

  /**
   * The announcements of a scan: once for each trial or paid period that has ended, or that ends in
   * the course of the first, third or seventh day from now, and no others.
   */
  lemma AnnouncedExactly(subs: seq<Subscription>, now: int, id: nat, days: int)
    ensures var notices := Notices(subs, ListedIds(subs, now + 7 * MS_PER_DAY, |subs|), now);
            && (Notice(id, days) in notices <==> id < |subs| && Announced(subs[id], now, days))
            && (forall i, j :: 0 <= i < j < |notices| ==> notices[i].id != notices[j].id)
  {
    var ids := ListedIds(subs, now + 7 * MS_PER_DAY, |subs|);
    ListedIdsOnce(subs, now + 7 * MS_PER_DAY, |subs|);
    NoticesOf(subs, ids, now, id, days);
    NoticesOnce(subs, ids, now);
    if id < |subs| {
      DayOfNotice(subs[id], now, days);
    }
  }

  ghost predicate PartlyScanned(before: seq<Subscription>, after: seq<Subscription>, done: seq<nat>, now: int) {
    && |after| == |before|
    && forall j :: 0 <= j < |before| ==> after[j] == if j in done then Scanned(before[j], now) else before[j]
  }

  lemma ScansNext(before: seq<Subscription>, after: seq<Subscription>, ids: seq<nat>, k: nat, now: int)
    requires k < |ids| && forall i :: 0 <= i < |ids| ==> ids[i] < |before|
    requires forall i, j :: 0 <= i < j < |ids| ==> ids[i] != ids[j]
    requires PartlyScanned(before, after, ids[..k], now)
    ensures after[ids[k]] == before[ids[k]]
    ensures PartlyScanned(before, after[ids[k] := Scanned(before[ids[k]], now)], ids[..k + 1], now)
  {
    assert ids[..k + 1] == ids[..k] + [ids[k]];
    assert ids[k] !in ids[..k];
  }

  lemma NoticesNext(subs: seq<Subscription>, ids: seq<nat>, k: nat, now: int)
    requires k < |ids| && forall i :: 0 <= i < |ids| ==> ids[i] < |subs|
    ensures var days := DaysRemaining(ScanEnd(subs[ids[k]]), now);
            Notices(subs, ids[..k + 1], now) == Notices(subs, ids[..k], now) +
            if days == 0 || days == 1 || days == 3 || days == 7 then [Notice(ids[k], days)] else []
  {
    assert ids[..k + 1][..k] == ids[..k];
  }

  /** Rows that are not listed would not be changed by the scan either. */
  lemma ListedAreEnough(before: seq<Subscription>, after: seq<Subscription>, now: int)
    requires PartlyScanned(before, after, ListedIds(before, now + 7 * MS_PER_DAY, |before|), now)
    ensures AllScanned(before, after, now)
  {
    ListedIdsOnce(before, now + 7 * MS_PER_DAY, |before|);
  }

  ghost predicate AllScanned(before: seq<Subscription>, after: seq<Subscription>, now: int) {
    |after| == |before| && forall i :: 0 <= i < |before| ==> after[i] == Scanned(before[i], now)
  }

  class SubscriptionTable {
    var subs: seq<Subscription>

    constructor (subs: seq<Subscription>)
      ensures this.subs == subs
    {
      this.subs := subs;
    }

    method FindExpiring(threshold: int) returns (ids: seq<nat>)
      ensures ids == ListedIds(subs, threshold, |subs|)
    {
      ids := [];
      for i := 0 to |subs|
        invariant ids == ListedIds(subs, threshold, i)
      {
        if Listed(subs[i], threshold) {
          ids := ids + [i];
        }
      }
    }

    /** Every lapsed row becomes EXPIRED, no other row changes, and each announcement is made once. */
    method ScanSubscriptions(now: int) returns (processed: nat, notices: seq<Notice>)
      modifies this
      ensures AllScanned(old(subs), subs, now)
      ensures notices == Notices(old(subs), ListedIds(old(subs), now + 7 * MS_PER_DAY, |old(subs)|), now)
      ensures processed == |notices|
    {
      var ids := FindExpiring(now + 7 * MS_PER_DAY);
      ghost var rows := subs;
      ListedIdsOnce(rows, now + 7 * MS_PER_DAY, |rows|);
      processed, notices := 0, [];
      for k := 0 to |ids|
        invariant PartlyScanned(rows, subs, ids[..k], now)
        invariant notices == Notices(rows, ids[..k], now) && processed == |notices|
      {
        ScansNext(rows, subs, ids, k, now);
        NoticesNext(rows, ids, k, now);
        var id := ids[k];
        var sub := subs[id];
        assert subs[id := sub] == subs;
        var days := DaysRemaining(ScanEnd(sub), now);
        if days == 0 && sub.status != Expired {
          subs := subs[id := sub.(status := Expired)];
          notices := notices + [Notice(id, 0)];
          processed := processed + 1;
        } else if days == 7 || days == 3 || days == 1 {
          notices := notices + [Notice(id, days)];
          processed := processed + 1;
        }
      }
      assert ids[..|ids|] == ids;
      ListedAreEnough(rows, subs, now);
    }
  }
}
