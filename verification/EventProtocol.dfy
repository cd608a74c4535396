/**
 * Durable delivery of one event under every interleaving of its publisher, any number of relay
 * workers, crashes and lost outcome writes (apps/api/src/events/event-bus.ts,
 * apps/api/src/events/event-store.ts). Every SQL statement and every handler result is one step;
 * the row functions are those of EventStore. Time only moves in Tick.
 */
module EventProtocol {
  import opened EventStore
  import opened Optional

  /**
   * A dispatch in progress: what its process knew to be completed, the handlers it still has to
   * run, and their results so far. `recorded` tells whether its outcome will be saved; a
   * publisher that saw its insert fail delivers in memory only, even if the row is there.
   */
  datatype Attempt = Attempt(
    relay: bool, recorded: bool, since: int,
    known: set<string>, left: set<string>, good: set<string>, bad: set<string>)

  /**
   * `done` counts the successful runs of each handler, `publications` the calls of publish,
   * `claimedAt` the latest claim that no saved outcome has followed, and `lost` tells whether some
   * attempt ended without saving its outcome.
   */
  datatype State = State(
    now: int, row: Option<Row>, flying: map<nat, Attempt>, nextId: nat,
    done: multiset<string>, publications: nat, claimedAt: Time, lost: bool)

  datatype Time = Never | At(t: int)

  datatype Action =
    | Tick(ms: nat)
    | Publish(inserted: bool, acknowledged: bool) // an insert may commit and still be reported as failed
    | Claim
    | Finish(a: nat, handler: string, ok: bool)
    | Save(a: nat)
    | Drop(a: nat) // crash, lost outcome write, or the end of an unrecorded delivery

  function Start(now: int): State {
    State(now, None, map[], 0, multiset{}, 0, Never, false)
  }

  /** `H` are the handlers registered for the event, the same in every process. */
  predicate Enabled(H: set<string>, s: State, x: Action) {
    match x
    case Tick(_) => true
    case Publish(inserted, acknowledged) => H != {} && (acknowledged ==> inserted)
    case Claim => s.row.Some? && Due(s.row.value, s.now)
    case Finish(a, h, _) => a in s.flying && h in s.flying[a].left
    case Save(a) => a in s.flying && s.flying[a].left == {} && s.flying[a].recorded && s.row.Some?
    case Drop(a) => a in s.flying
  }

  function Apply(H: set<string>, s: State, x: Action): State
    requires Enabled(H, s, x)
  {
    match x
    case Tick(ms) => s.(now := s.now + ms)
    case Publish(inserted, acknowledged) =>
      s.(row := if inserted && s.row.None? then Some(Recorded("", s.now)) else s.row,
         flying := s.flying[s.nextId := Attempt(false, acknowledged, s.now, {}, H, {}, {})],
         nextId := s.nextId + 1,
         publications := s.publications + 1)
    case Claim =>
      s.(row := Some(Leased(s.row.value, s.now)),
         flying := s.flying[s.nextId :=
           Attempt(true, true, s.now, s.row.value.completed, H - s.row.value.completed, {}, {})],
         nextId := s.nextId + 1,
         claimedAt := At(s.now))
    case Finish(a, h, ok) =>
      var f := s.flying[a];
      s.(flying := s.flying[a := f.(left := f.left - {h},
                                    good := if ok then f.good + {h} else f.good,
                                    bad := if ok then f.bad else f.bad + {h})],
         done := if ok then s.done + multiset{h} else s.done)
    case Save(a) =>
      var f := s.flying[a];
      s.(row := Some(Marked(s.row.value, f.good, |f.bad|, s.now)),
         flying := s.flying - {a},
         claimedAt := Never)
    case Drop(a) =>
      s.(flying := s.flying - {a}, lost := true)
  }

  /** A run: consecutive states, each the result of an enabled action. */
  ghost predicate IsRun(H: set<string>, states: seq<State>, actions: seq<Action>) {
    && |states| == |actions| + 1
    && (exists now :: states[0] == Start(now))
    && (forall i :: 0 <= i < |actions| ==>
          Enabled(H, states[i], actions[i]) && states[i + 1] == Apply(H, states[i], actions[i]))
  }

  // ---------- The invariant of every reachable state ----------

  /** An attempt whose outcome can be saved accounts for every handler; its successes happened. */
  ghost predicate AttemptOk(H: set<string>, s: State, f: Attempt) {
    && f.known + f.left + f.good + f.bad == H
    && f.good !! f.bad && f.left !! (f.good + f.bad)
    && (forall h :: h in f.good ==> h in s.done)
    && (f.recorded ==> s.row.Some? && f.known <= s.row.value.completed)
    && f.since <= s.now
  }

  ghost predicate RowOk(H: set<string>, s: State, r: Row) {
    && r.completed <= H
    && (forall h :: h in r.completed ==> h in s.done)
    && (r.status == Dispatched ==> r.completed == H)
    && (r.status == Pending ==> r.attempts == 0 && r.completed == {})
    && (r.status == Failed ==> r.attempts < MAX_EVENT_ATTEMPTS)
    && (r.status == Dead ==> r.attempts >= MAX_EVENT_ATTEMPTS)
    && r.created <= s.now && r.next <= s.now + BACKOFF_CAP_MS
    && (s.claimedAt.At? ==> r.next == s.claimedAt.t + LEASE_MS)
  }

  ghost predicate Inv(H: set<string>, s: State) {
    && (s.row.Some? ==> RowOk(H, s, s.row.value))
    && (s.row.None? ==> s.claimedAt.Never?)
    && (forall a :: a in s.flying ==> a < s.nextId && AttemptOk(H, s, s.flying[a]))
  }

  /** Saving an attempt that ran all its handlers keeps the row's promise, however late it comes. */
  lemma SavedIsComplete(H: set<string>, known: set<string>, good: set<string>, bad: set<string>, completed: set<string>)
    requires known + good + bad == H && known <= completed <= H
    ensures completed + good <= H
    ensures |bad| == 0 ==> completed + good == H
  {
    if |bad| == 0 {
      assert bad == {};
      assert known + good == H;
    }
  }

  lemma RowKept(H: set<string>, s: State, x: Action)
    requires Inv(H, s) && Enabled(H, s, x) && Apply(H, s, x).row.Some?
    ensures RowOk(H, Apply(H, s, x), Apply(H, s, x).row.value)
  {
    if x.Save? {
      var f := s.flying[x.a];
      SavedIsComplete(H, f.known, f.good, f.bad, s.row.value.completed);
    }
  }

  lemma AttemptKept(H: set<string>, s: State, x: Action, a: nat)
    requires Inv(H, s) && Enabled(H, s, x) && a in Apply(H, s, x).flying
    ensures a < Apply(H, s, x).nextId && AttemptOk(H, Apply(H, s, x), Apply(H, s, x).flying[a])
  {
    if a in s.flying {
      var f := s.flying[a];
      assert AttemptOk(H, s, f);
      if x.Finish? && x.a == a {
        assert f.left == (f.left - {x.handler}) + {x.handler};
      }
    }
  }

  lemma InvKept(H: set<string>, s: State, x: Action)
    requires Inv(H, s) && Enabled(H, s, x)
    ensures Inv(H, Apply(H, s, x))
  {
    var t := Apply(H, s, x);
    if t.row.Some? {
      RowKept(H, s, x);
    }
    forall a | a in t.flying
      ensures a < t.nextId && AttemptOk(H, t, t.flying[a])
    {
      AttemptKept(H, s, x, a);
    }
  }

  lemma {:induction false} Reachable(H: set<string>, states: seq<State>, actions: seq<Action>, i: nat)
    requires IsRun(H, states, actions) && i < |states|
    ensures Inv(H, states[i])
  {
    if i > 0 {
      Reachable(H, states, actions, i - 1);
      InvKept(H, states[i - 1], actions[i - 1]);
    }
  }

  // ---------- Safety over whole runs ----------

  /** DISPATCHED means delivered to every handler, and a completed handler really succeeded. */
  lemma DispatchedMeansDelivered(H: set<string>, states: seq<State>, actions: seq<Action>, i: nat)
    requires IsRun(H, states, actions) && i < |states| && states[i].row.Some?
    ensures states[i].row.value.status == Dispatched ==> forall h :: h in H ==> h in states[i].row.value.completed
    ensures forall h :: h in states[i].row.value.completed ==> h in H && states[i].done[h] > 0
  {
    Reachable(H, states, actions, i);
  }

  /** A recorded event stays recorded; its completed set and its attempts never shrink. */
  lemma {:induction false} ProgressIsKept(H: set<string>, states: seq<State>, actions: seq<Action>, i: nat, j: nat)
    requires IsRun(H, states, actions) && i <= j < |states| && states[i].row.Some?
    ensures states[j].row.Some? && states[i].row.value.completed <= states[j].row.value.completed
    ensures states[i].row.value.attempts <= states[j].row.value.attempts
  {
    if i < j {
      ProgressIsKept(H, states, actions, i, j - 1);
    }
  }

  /** Once every handler is completed, a later claim has nothing left to run. */
  lemma DeliveredIsNeverRerun(H: set<string>, states: seq<State>, actions: seq<Action>, i: nat, j: nat)
    requires IsRun(H, states, actions) && i <= j < |actions| && states[i].row.Some?
    requires H <= states[i].row.value.completed && actions[j] == Claim
    ensures states[j].nextId in states[j + 1].flying && states[j + 1].flying[states[j].nextId].left == {}
  {
    ProgressIsKept(H, states, actions, i, j);
  }

  /** Without a saved outcome in between, the lease of a claim is still the one in force. */
  lemma {:induction false} LeaseHolds(H: set<string>, states: seq<State>, actions: seq<Action>, i: nat, j: nat)
    requires IsRun(H, states, actions) && i < j < |states| && actions[i] == Claim
    requires forall k :: i < k < j ==> !actions[k].Save?
    ensures states[j].claimedAt.At? && states[j].claimedAt.t >= states[i].now && states[j].now >= states[i].now
  {
    if i + 1 < j {
      LeaseHolds(H, states, actions, i, j - 1);
    }
  }

  /** Two claims with no outcome saved between them are at least a lease (300 s) apart. */
  lemma ClaimsAreLeaseApart(H: set<string>, states: seq<State>, actions: seq<Action>, i: nat, j: nat)
    requires IsRun(H, states, actions) && i < j < |actions| && actions[i] == Claim && actions[j] == Claim
    requires forall k :: i < k < j ==> !actions[k].Save?
    ensures states[j].now - states[i].now >= 300_000
  {
    LeaseHolds(H, states, actions, i, j);
    Reachable(H, states, actions, j);
  }

  /** From the tenth saved attempt on, nothing claims the event again: it stays DEAD or DISPATCHED. */
  lemma GivenUpForGood(H: set<string>, states: seq<State>, actions: seq<Action>, i: nat, j: nat)
    requires IsRun(H, states, actions) && i <= j < |states|
    requires states[i].row.Some? && states[i].row.value.attempts >= 10
    ensures states[j].row.Some? && (states[j].row.value.status == Dead || states[j].row.value.status == Dispatched)
    ensures !Enabled(H, states[j], Claim)
  {
    ProgressIsKept(H, states, actions, i, j);
    Reachable(H, states, actions, j);
  }

  /**
   * The invariants have to survive late results: here a publisher slower than its window saves a
   * failure after the relay has dispatched the event, which reopens it.
   */
  lemma LateOutcomeReopens(h: string) returns (states: seq<State>, actions: seq<Action>)
    ensures IsRun({h}, states, actions) && |states| == 8
    ensures states[6].row.Some? && states[6].row.value.status == Dispatched
    ensures states[7].row.Some? && states[7].row.value.status == Failed && h in states[7].row.value.completed
  {
    states, actions := BothFinished(h);
    var t, u := SavesInTurn(h, states[5]);
    Extended({h}, states, actions, Save(1));
    states, actions := states + [t], actions + [Save(1)];
    Extended({h}, states, actions, Save(0));
    states, actions := states + [u], actions + [Save(0)];
  }

  lemma Extended(H: set<string>, states: seq<State>, actions: seq<Action>, x: Action)
    requires IsRun(H, states, actions) && Enabled(H, states[|actions|], x)
    ensures IsRun(H, states + [Apply(H, states[|actions|], x)], actions + [x])
  {
    assert (states + [Apply(H, states[|actions|], x)])[0] == states[0];
  }

  /** The relay has claimed an event that its publisher is still delivering. */
  lemma BothStarted(h: string) returns (states: seq<State>, actions: seq<Action>)
    ensures IsRun({h}, states, actions) && |states| == 4
    ensures states[3].row == Some(Leased(Recorded("", 0), STALE_PENDING_MS))
    ensures states[3].flying == map[0 := Attempt(false, true, 0, {}, {h}, {}, {}),
                                    1 := Attempt(true, true, STALE_PENDING_MS, {}, {h}, {}, {})]
  {
    var s0 := Start(0);
    var s1 := Apply({h}, s0, Publish(true, true));
    var s2 := Apply({h}, s1, Tick(STALE_PENDING_MS));
    assert {h} - {} == {h};
    states := [s0, s1, s2, Apply({h}, s2, Claim)];
    actions := [Publish(true, true), Tick(STALE_PENDING_MS), Claim];
  }

  /** The handler succeeds for the relay and fails for the publisher. */
  lemma BothFinished(h: string) returns (states: seq<State>, actions: seq<Action>)
    ensures IsRun({h}, states, actions) && |states| == 6
    ensures states[5].row == Some(Leased(Recorded("", 0), STALE_PENDING_MS))
    ensures states[5].flying == map[0 := Attempt(false, true, 0, {}, {}, {}, {h}),
                                    1 := Attempt(true, true, STALE_PENDING_MS, {}, {}, {h}, {})]
  {
    states, actions := BothStarted(h);
    var x, y := Finish(1, h, true), Finish(0, h, false);
    var s4 := Apply({h}, states[3], x);
    Extended({h}, states, actions, x);
    states, actions := states + [s4], actions + [x];
    Extended({h}, states, actions, y);
    states, actions := states + [Apply({h}, s4, y)], actions + [y];
    assert {h} - {h} == {} && {} + {h} == {h};
  }

  lemma SavesInTurn(h: string, s: State) returns (t: State, u: State)
    requires s.row.Some? && s.row.value.attempts == 0 && s.flying.Keys == {0, 1}
    requires s.flying[1].left == {} && s.flying[1].recorded && s.flying[1].good == {h} && s.flying[1].bad == {}
    requires s.flying[0].left == {} && s.flying[0].recorded && s.flying[0].bad == {h}
    ensures Enabled({h}, s, Save(1)) && t == Apply({h}, s, Save(1)) && t.row.Some? && t.row.value.status == Dispatched
    ensures Enabled({h}, t, Save(0)) && u == Apply({h}, t, Save(0)) && u.row.Some? && u.row.value.status == Failed
    ensures h in u.row.value.completed
  {
    t := Apply({h}, s, Save(1));
    u := Apply({h}, t, Save(0));
    assert |{h}| == 1;
  }

  /** That is the only way out: a step leaves DISPATCHED exactly when it saves an attempt with a failed handler. */
  lemma LeavesDispatched(H: set<string>, s: State, x: Action)
    requires Enabled(H, s, x) && s.row.Some? && s.row.value.status == Dispatched
    ensures Apply(H, s, x).row.Some?
    ensures Apply(H, s, x).row.value.status != Dispatched <==> x.Save? && s.flying[x.a].bad != {}
  {
    if x.Save? {
      assert |s.flying[x.a].bad| == 0 <==> s.flying[x.a].bad == {};
    }
  }

  // ---------- Nothing is lost ----------

  datatype Outcome = Stuck | Reached(state: State)

  /** Performs a sequence of actions, stopping at one that is not enabled. */
  function Perform(H: set<string>, s: State, path: seq<Action>): Outcome
    decreases |path|
  {
    if path == [] then Reached(s)
    else if Enabled(H, s, path[0]) then Perform(H, Apply(H, s, path[0]), path[1..])
    else Stuck
  }

  lemma {:induction false} PerformAppend(H: set<string>, s: State, path: seq<Action>, t: State, x: Action)
    requires Perform(H, s, path) == Reached(t) && Enabled(H, t, x)
    ensures Perform(H, s, path + [x]) == Reached(Apply(H, t, x))
    decreases |path|
  {
    if path == [] {
      assert path + [x] == [x];
    } else {
      PerformAppend(H, Apply(H, s, path[0]), path[1..], t, x);
      assert (path + [x])[1..] == path[1..] + [x];
    }
  }

  /** An attempt can always run its remaining handlers to success. */
  lemma {:induction false} FinishAll(H: set<string>, s: State, a: nat) returns (path: seq<Action>, t: State)
    requires Inv(H, s) && a in s.flying && s.row.Some?
    ensures Perform(H, s, path) == Reached(t) && Inv(H, t)
    ensures forall x :: x in path ==> x.Finish?
    ensures a in t.flying && t.row == s.row
    ensures t.flying[a] == s.flying[a].(left := {}, good := s.flying[a].good + s.flying[a].left)
    decreases s.flying[a].left
  {
    var f := s.flying[a];
    if f.left == {} {
      assert f.good + f.left == f.good;
      path, t := [], s;
    } else {
      var h :| h in f.left;
      var x := Finish(a, h, true);
      var u := Apply(H, s, x);
      InvKept(H, s, x);
      var rest;
      rest, t := FinishAll(H, u, a);
      path := [x] + rest;
      assert path[1..] == rest;
      assert (f.good + {h}) + (f.left - {h}) == f.good + f.left;
    }
  }

  lemma ClaimAndDeliver(H: set<string>, s: State) returns (path: seq<Action>, t: State)
    requires Inv(H, s) && Enabled(H, s, Claim)
    ensures Perform(H, s, path) == Reached(t) && t.row.Some? && t.row.value.status == Dispatched
    ensures forall x :: x in path ==> !x.Tick?
  {
    InvKept(H, s, Claim);
    var rest;
    rest, t := FinishAndSave(H, Apply(H, s, Claim), s.nextId);
    path := [Claim] + rest;
    assert path[1..] == rest;
  }

  lemma FinishAndSave(H: set<string>, s: State, a: nat) returns (path: seq<Action>, t: State)
    requires Inv(H, s) && a in s.flying && s.flying[a].recorded && s.flying[a].bad == {}
    ensures Perform(H, s, path) == Reached(t) && t.row.Some? && t.row.value.status == Dispatched
    ensures forall x :: x in path ==> !x.Tick?
  {
    assert AttemptOk(H, s, s.flying[a]);
    var run, u := FinishAll(H, s, a);
    t := Apply(H, u, Save(a));
    PerformAppend(H, s, run, u, Save(a));
    path := run + [Save(a)];
  }

  /**
   * However an event came to be pending or failed, within an hour the relay may claim it, and if
   * its handlers then succeed it ends up dispatched.
   */
  lemma CanStillBeDelivered(H: set<string>, states: seq<State>, actions: seq<Action>, i: nat)
    returns (path: seq<Action>, t: State)
    requires IsRun(H, states, actions) && i < |states|
    requires states[i].row.Some? && (states[i].row.value.status == Pending || states[i].row.value.status == Failed)
    ensures Enabled(H, Apply(H, states[i], Tick(3_600_000)), Claim)
    ensures Perform(H, states[i], path) == Reached(t) && t.row.Some? && t.row.value.status == Dispatched
    ensures forall x :: x in path && x.Tick? ==> x.ms == 3_600_000
  {
    var s := states[i];
    Reachable(H, states, actions, i);
    var x := Tick(BACKOFF_CAP_MS);
    InvKept(H, s, x);
    var rest;
    rest, t := ClaimAndDeliver(H, Apply(H, s, x));
    path := [x] + rest;
    assert path[1..] == rest;
  }

  // ---------- Exactly once, when attempts keep within their windows ----------

  function PublishCount(actions: seq<Action>): nat {
    if actions == [] then 0
    else PublishCount(actions[..|actions| - 1]) + if actions[|actions| - 1].Publish? then 1 else 0
  }

  function Successes(actions: seq<Action>, h: string): nat {
    if actions == [] then 0
    else
      var last := actions[|actions| - 1];
      Successes(actions[..|actions| - 1], h) + if last.Finish? && last.handler == h && last.ok then 1 else 0
  }

  /** What a state remembers of its run: publications, each handler's successes, and whether an outcome was lost. */
  lemma {:induction false} StateRemembers(H: set<string>, states: seq<State>, actions: seq<Action>, i: nat, h: string)
    requires IsRun(H, states, actions) && i < |states|
    ensures states[i].publications == PublishCount(actions[..i])
    ensures states[i].done[h] == Successes(actions[..i], h)
    ensures states[i].lost <==> exists k :: 0 <= k < i && actions[k].Drop?
  {
    if i > 0 {
      StateRemembers(H, states, actions, i - 1, h);
      StepRemembers(H, states[i - 1], actions[i - 1], h);
      assert actions[..i][..i - 1] == actions[..i - 1];
    }
  }

  lemma StepRemembers(H: set<string>, s: State, x: Action, h: string)
    requires Enabled(H, s, x)
    ensures var t := Apply(H, s, x);
            && t.publications == s.publications + (if x.Publish? then 1 else 0)
            && t.done[h] == s.done[h] + (if x.Finish? && x.handler == h && x.ok then 1 else 0)
            && (t.lost <==> s.lost || x.Drop?)
  {
  }

  /** Every attempt ends before its lease does; a publisher before its event counts as abandoned. */
  ghost predicate OnTime(s: State) {
    forall a :: a in s.flying ==>
      s.now < s.flying[a].since + if s.flying[a].relay then 300_000 else 120_000
  }

  /** A run in which the event is published once and no attempt outlives its window. */
  ghost predicate IsTimelyRun(H: set<string>, states: seq<State>, actions: seq<Action>) {
    && IsRun(H, states, actions)
    && (forall i :: 0 <= i < |states| ==> OnTime(states[i]) && states[i].publications <= 1)
  }

  function Once(h: string, s: set<string>): nat {
    if h in s then 1 else 0
  }

  /** The one attempt in progress knows exactly what the row knows, and the row is reserved for it. */
  ghost predicate Alone(s: State, f: Attempt) {
    && (s.row.None? ==> !f.recorded && f.known == {})
    && (s.row.Some? ==>
          && f.known == s.row.value.completed
          && (s.row.value.status == Pending || s.row.value.status == Failed)
          && (if f.relay then f.recorded && s.row.value.next == f.since + LEASE_MS
              else s.row.value.status == Pending && s.row.value.created == f.since))
  }

  function SavedRuns(s: State, h: string): nat {
    if s.row.Some? then Once(h, s.row.value.completed) else 0
  }

  /** No attempt in progress: unless outcomes were lost, the row accounts for every success. */
  ghost predicate Idle(s: State) {
    && s.flying == map[]
    && (s.publications == 0 ==> s.row.None?)
    && (!s.lost ==> forall h :: s.done[h] == SavedRuns(s, h))
  }

  /** Attempt `a` is the only one in progress; it accounts for the successes the row does not. */
  ghost predicate Busy(s: State, a: nat) {
    && a in s.flying && s.flying == map[a := s.flying[a]]
    && s.publications == 1
    && Alone(s, s.flying[a])
    && s.flying[a].good !! s.flying[a].known && s.flying[a].left !! s.flying[a].known
    && (!s.lost ==> forall h :: s.done[h] == SavedRuns(s, h) + Once(h, s.flying[a].good))
  }

  ghost predicate TimelyInv(H: set<string>, s: State) {
    && Inv(H, s)
    && (s.row.Some? ==> s.row.value.attempts <= MAX_EVENT_ATTEMPTS)
    && (Idle(s) || exists a :: Busy(s, a))
  }

  lemma FromIdle(H: set<string>, s: State, x: Action)
    requires Inv(H, s) && Idle(s) && Enabled(H, s, x)
    requires OnTime(Apply(H, s, x)) && Apply(H, s, x).publications <= 1
    ensures var t := Apply(H, s, x); if x.Publish? || x.Claim? then Busy(t, s.nextId) else Idle(t)
  {
  }

  lemma BusyFinish(H: set<string>, s: State, a: nat, x: Action)
    requires Inv(H, s) && Busy(s, a) && x.Finish? && Enabled(H, s, x)
    ensures Busy(Apply(H, s, x), a)
  {
    var t := Apply(H, s, x);
    assert x.a == a && AttemptOk(H, s, s.flying[a]);
    assert t.flying == map[a := t.flying[a]];
  }

  lemma BusySave(H: set<string>, s: State, a: nat)
    requires Inv(H, s) && Busy(s, a) && Enabled(H, s, Save(a))
    ensures Idle(Apply(H, s, Save(a))) && s.row.value.attempts < MAX_EVENT_ATTEMPTS
  {
    assert RowOk(H, s, s.row.value);
    assert Apply(H, s, Save(a)).flying == map[];
    forall h
      ensures SavedRuns(Apply(H, s, Save(a)), h) == SavedRuns(s, h) + Once(h, s.flying[a].good)
    {
      SaveAccounts(H, s, a, h);
    }
  }

  /** The save books exactly the successes the row did not have. */
  lemma SaveAccounts(H: set<string>, s: State, a: nat, h: string)
    requires Busy(s, a) && Enabled(H, s, Save(a))
    ensures SavedRuns(Apply(H, s, Save(a)), h) == SavedRuns(s, h) + Once(h, s.flying[a].good)
  {
    assert s.flying[a].known == s.row.value.completed;
  }

  /** While an attempt is in progress its row cannot be claimed. */
  lemma FromBusy(H: set<string>, s: State, a: nat, x: Action)
    requires Inv(H, s) && Busy(s, a) && Enabled(H, s, x)
    requires OnTime(s) && Apply(H, s, x).publications <= 1
    ensures !x.Claim? && !x.Publish?
    ensures var t := Apply(H, s, x); if x.Save? || x.Drop? then Idle(t) else Busy(t, a)
    ensures x.Save? ==> s.row.value.attempts < MAX_EVENT_ATTEMPTS
  {
    if x.Finish? {
      BusyFinish(H, s, a, x);
    } else if x.Save? {
      assert x.a == a;
      BusySave(H, s, a);
    } else if x.Drop? {
      assert Apply(H, s, x).flying == map[];
    }
  }

  lemma TimelyKept(H: set<string>, s: State, x: Action)
    requires TimelyInv(H, s) && Enabled(H, s, x)
    requires OnTime(s) && OnTime(Apply(H, s, x)) && Apply(H, s, x).publications <= 1
    ensures TimelyInv(H, Apply(H, s, x))
  {
    InvKept(H, s, x);
    if Idle(s) {
      FromIdle(H, s, x);
    } else {
      var a :| Busy(s, a);
      FromBusy(H, s, a, x);
    }
  }

  lemma {:induction false} TimelyReachable(H: set<string>, states: seq<State>, actions: seq<Action>, i: nat)
    requires IsTimelyRun(H, states, actions) && i < |states|
    ensures TimelyInv(H, states[i])
  {
    if i > 0 {
      TimelyReachable(H, states, actions, i - 1);
      TimelyKept(H, states[i - 1], actions[i - 1]);
    }
  }

  /** On time, an event is attempted at most ten times, by one process at a time, and DEAD means exactly ten. */
  lemma AtMostTenAttempts(H: set<string>, states: seq<State>, actions: seq<Action>, i: nat)
    requires IsTimelyRun(H, states, actions) && i < |states|
    ensures forall a, b :: a in states[i].flying && b in states[i].flying ==> a == b
    ensures states[i].row.Some? ==> states[i].row.value.attempts <= 10
    ensures states[i].row.Some? && states[i].row.value.status == Dead
        ==> states[i].row.value.attempts == 10
  {
    TimelyReachable(H, states, actions, i);
  }

  /** On time, a dispatched event's row never changes again. */
  lemma {:induction false} DispatchedIsFinal(H: set<string>, states: seq<State>, actions: seq<Action>, i: nat, j: nat)
    requires IsTimelyRun(H, states, actions) && i <= j < |states|
    requires states[i].row.Some? && states[i].row.value.status == Dispatched
    ensures states[j].row == states[i].row
  {
    if i < j {
      DispatchedIsFinal(H, states, actions, i, j - 1);
      TimelyReachable(H, states, actions, j - 1);
      DispatchedStep(H, states[j - 1], actions[j - 1]);
    }
  }

  lemma DispatchedStep(H: set<string>, s: State, x: Action)
    requires TimelyInv(H, s) && Enabled(H, s, x) && s.row.Some? && s.row.value.status == Dispatched
    ensures Apply(H, s, x).row == s.row
  {
    assert Idle(s);
  }

  /** On time and with every outcome saved, no handler succeeds twice, and DISPATCHED means each once. */
  lemma ExactlyOnce(H: set<string>, states: seq<State>, actions: seq<Action>, i: nat, h: string)
    requires IsTimelyRun(H, states, actions) && i < |states| && !states[i].lost
    ensures states[i].done[h] <= 1
    ensures states[i].row.Some? && states[i].row.value.status == Dispatched ==>
              states[i].done[h] == Once(h, H)
  {
    TimelyReachable(H, states, actions, i);
    var s := states[i];
    if !Idle(s) {
      var a :| Busy(s, a);
      assert s.done[h] == SavedRuns(s, h) + Once(h, s.flying[a].good);
    }
  }

  /** Such runs are the rule: a publication whose handler succeeds and whose outcome is saved. */
  lemma DeliveredAtOnce(h: string) returns (states: seq<State>, actions: seq<Action>)
    ensures IsTimelyRun({h}, states, actions) && |states| == 4 && !states[3].lost && states[3].publications == 1
    ensures states[3].row.Some? && states[3].row.value.status == Dispatched && states[3].done == multiset{h}
  {
    var s0 := Start(0);
    var s1 := Apply({h}, s0, Publish(true, true));
    assert s1.flying == map[0 := Attempt(false, true, 0, {}, {h}, {}, {})];
    var s2 := Apply({h}, s1, Finish(0, h, true));
    assert {h} - {h} == {} && {} + {h} == {h};
    assert s2.flying == map[0 := Attempt(false, true, 0, {}, {}, {h}, {})];
    var s3 := Apply({h}, s2, Save(0));
    assert s3.flying == map[];
    states, actions := [s0, s1, s2, s3], [Publish(true, true), Finish(0, h, true), Save(0)];
    assert states[0] == Start(0);
  }
}
