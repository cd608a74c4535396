/**
 * Sending one notification at most once: the claims of
 * apps/api/src/modules/notifications/notification.repository.ts and the send worker
 * (apps/api/src/workers/whatsapp.worker.ts), for one idempotency key. Any number of copies of its
 * job may run at once; each database statement is one step. Times are milliseconds.
 */
module SendClaims {
  import opened Optional

  const SENDING_CLAIM_STALE_MS: int := 600_000

  datatype Status = Queued | Sending | Sent | Delivered | Read | Failed

  /** A row of the notification history; `atProvider` once it carries a provider message id. */
  datatype Row = Row(status: Status, updatedAt: int, atProvider: bool)

  predicate Claimable(r: Row, now: int) {
    r.status == Queued || r.status == Failed || (r.status == Sending && r.updatedAt < now - SENDING_CLAIM_STALE_MS)
  }

  function Written(r: Row, status: Status, now: int): Row {
    r.(status := status, updatedAt := now, atProvider := r.atProvider || status == Sent)
  }

  /** `createHistory` leaves an existing row as it is. */
  function Created(r: Option<Row>, overLimit: bool, now: int): Row {
    if r.Some? then r.value else Row(if overLimit then Failed else Queued, now, false)
  }

  // ---------- The protocol ----------

  datatype Answer = Waiting | Accepted | Rejected

  /** A job that won its claim. */
  datatype Attempt = Attempt(since: int, answer: Answer)

  /** `accepted` counts the messages the provider took. */
  datatype State = State(now: int, row: Option<Row>, flying: map<nat, Attempt>, nextId: nat, accepted: nat)

  datatype Action =
    | Tick(ms: nat)
    | Enqueue(overLimit: bool)     // also every redelivery of the event behind it
    | Claim                        // a copy of the job wins
    | Answered(id: nat, ok: bool)  // the provider takes the message or not
    | Save(id: nat)                // the worker writes SENT or FAILED
    | Crash(id: nat)               // the worker dies, before or after the provider answered
    | Receipt(status: Status)      // a delivery receipt for the provider's message id
    | Retry                        // by hand

  predicate Enabled(s: State, x: Action) {
    match x
    case Claim => s.row.Some? && Claimable(s.row.value, s.now)
    case Answered(id, _) => id in s.flying && s.flying[id].answer == Waiting
    case Save(id) => id in s.flying && s.flying[id].answer != Waiting && s.row.Some?
    case Crash(id) => id in s.flying
    case Receipt(_) => s.row.Some? && s.row.value.atProvider
    case Retry => s.row.Some?
    case _ => true
  }

  function Apply(s: State, x: Action): State
    requires Enabled(s, x)
  {
    match x
    case Tick(ms) => s.(now := s.now + ms)
    case Enqueue(overLimit) => s.(row := Some(Created(s.row, overLimit, s.now)))
    case Claim =>
      s.(row := Some(Written(s.row.value, Sending, s.now)),
         flying := s.flying[s.nextId := Attempt(s.now, Waiting)], nextId := s.nextId + 1)
    case Answered(id, ok) =>
      s.(flying := s.flying[id := s.flying[id].(answer := if ok then Accepted else Rejected)],
         accepted := s.accepted + if ok then 1 else 0)
    case Save(id) =>
      s.(row := Some(Written(s.row.value, if s.flying[id].answer == Accepted then Sent else Failed, s.now)),
         flying := s.flying - {id})
    case Crash(id) => s.(flying := s.flying - {id})
    case Receipt(status) => s.(row := Some(Written(s.row.value, status, s.now)))
    case Retry => s.(row := Some(Written(s.row.value, Queued, s.now)))
  }

  ghost predicate IsRun(states: seq<State>, actions: seq<Action>) {
    && |states| == |actions| + 1
    && states[0].row == None && states[0].flying == map[] && states[0].accepted == 0
    && (forall i :: 0 <= i < |actions| ==>
          Enabled(states[i], actions[i]) && states[i + 1] == Apply(states[i], actions[i]))
  }

  /** A write of the status other than a claim. */
  predicate WritesStatus(x: Action) {
    x.Save? || x.Receipt? || x.Retry?
  }

  /** After a claim the row stays as the claim left it until someone writes its status or claims it again. */
  lemma {:induction false} ClaimHolds(states: seq<State>, actions: seq<Action>, i: nat, j: nat)
    requires IsRun(states, actions) && i < j < |states| && actions[i] == Claim
    requires forall k :: i < k < j ==> !WritesStatus(actions[k]) && actions[k] != Claim
    ensures states[j].row.Some? && states[j].row.value.status == Sending
        && states[j].row.value.updatedAt == states[i].now
  {
    if i + 1 < j {
      ClaimHolds(states, actions, i, j - 1);
    }
  }

  /**
   * In every run, with crashes, retries and any number of job copies: two successive claims have a
   * status write between them or are more than ten minutes apart.
   */
  lemma ClaimsAreApart(states: seq<State>, actions: seq<Action>, i: nat, j: nat)
    requires IsRun(states, actions) && i < j < |actions| && actions[i] == Claim && actions[j] == Claim
    requires forall k :: i < k < j ==> actions[k] != Claim
    ensures (exists k :: i < k < j && WritesStatus(actions[k]))
        || states[i].now + 600_000 < states[j].now
  {
    if forall k :: i < k < j ==> !WritesStatus(actions[k]) {
      ClaimHolds(states, actions, i, j);
    }
  }

  // ---------- Sent at most once ----------

  predicate Confirmed(status: Status) {
    status == Sent || status == Delivered || status == Read
  }

  /**
   * A step that cannot lead to a second message: a crash comes before the provider has accepted, a
   * retry while nothing was accepted and nothing is in flight, and a receipt only confirms.
   */
  predicate Smooth(s: State, x: Action) {
    match x
    case Crash(id) => !(id in s.flying && s.flying[id].answer == Accepted)
    case Retry => s.accepted == 0 && s.flying == map[]
    case Receipt(status) => Confirmed(status)
    case _ => true
  }

  /** No send in progress has lasted longer than `d`. */
  ghost predicate SendsWithin(s: State, d: int) {
    forall id :: id in s.flying ==> s.now <= s.flying[id].since + d
  }

  ghost predicate SmoothRun(states: seq<State>, actions: seq<Action>, d: int) {
    && IsRun(states, actions)
    && (forall i :: 0 <= i < |actions| ==> Smooth(states[i], actions[i]))
    && (forall i :: 0 <= i < |states| ==> SendsWithin(states[i], d))
  }

  /** At most one job is sending, and what the provider took is what the row says or is about to say. */
  ghost predicate Inv(s: State) {
    && (s.row.Some? ==> s.row.value.updatedAt <= s.now)
    && (forall id :: id in s.flying ==> id < s.nextId)
    && (forall id, other :: id in s.flying && other in s.flying ==> id == other)
    && (forall id :: id in s.flying ==>
          && s.row.Some? && s.row.value.status == Sending && s.row.value.updatedAt == s.flying[id].since
          && !s.row.value.atProvider
          && s.accepted == if s.flying[id].answer == Accepted then 1 else 0)
    && (s.flying == map[] ==>
          && s.accepted == (if s.row.Some? && Confirmed(s.row.value.status) then 1 else 0)
          && (s.row.Some? ==> (s.row.value.atProvider <==> Confirmed(s.row.value.status))))
  }

  lemma InvKept(s: State, x: Action)
    requires Inv(s) && SendsWithin(s, SENDING_CLAIM_STALE_MS) && Smooth(s, x) && Enabled(s, x)
    ensures Inv(Apply(s, x))
  {
    var t := Apply(s, x);
    match x
    case Save(id) =>
      assert forall other :: other in s.flying ==> other == id;
      assert t.flying == map[];
    case Crash(id) =>
      assert forall other :: other in s.flying ==> other == id;
      assert t.flying == map[];
    case Claim =>
      assert s.flying == map[];
      assert t.flying == map[s.nextId := Attempt(s.now, Waiting)] && s.nextId in t.flying;
    case Receipt(_) => assert s.flying == map[];
    case Answered(id, _) => assert t.flying.Keys == s.flying.Keys;
    case _ =>
  }

  lemma {:induction false} Reachable(states: seq<State>, actions: seq<Action>, i: nat)
    requires SmoothRun(states, actions, SENDING_CLAIM_STALE_MS) && i < |states|
    ensures Inv(states[i])
  {
    if i > 0 {
      Reachable(states, actions, i - 1);
      InvKept(states[i - 1], actions[i - 1]);
    } else {
      assert states[0].flying == map[];
    }
  }

  lemma AcceptedOnce(s: State)
    requires Inv(s)
    ensures s.accepted <= 1
    ensures s.row.Some? && Confirmed(s.row.value.status) ==> s.accepted == 1 && !Enabled(s, Claim)
  {
    if id :| id in s.flying {
    } else {
      assert s.flying == map[];
    }
  }

  lemma {:induction false} StaysConfirmed(states: seq<State>, actions: seq<Action>, i: nat, j: nat)
    requires SmoothRun(states, actions, SENDING_CLAIM_STALE_MS) && i <= j < |states|
    requires states[i].row.Some? && Confirmed(states[i].row.value.status)
    ensures states[j].row.Some? && Confirmed(states[j].row.value.status)
  {
    if i < j {
      StaysConfirmed(states, actions, i, j - 1);
      Reachable(states, actions, j - 1);
      AcceptedOnce(states[j - 1]);
    }
  }

  /**
   * In smooth runs whose sends last at most ten minutes the provider takes the message at most
   * once, and once the row says SENT nobody claims it again.
   */
  lemma SentAtMostOnce(states: seq<State>, actions: seq<Action>, i: nat, j: nat)
    requires SmoothRun(states, actions, SENDING_CLAIM_STALE_MS) && i <= j < |states|
    ensures states[j].accepted <= 1
    ensures states[i].row.Some? && Confirmed(states[i].row.value.status) ==>
              states[j].accepted == 1 && !Enabled(states[j], Claim)
  {
    Reachable(states, actions, j);
    AcceptedOnce(states[j]);
    if states[i].row.Some? && Confirmed(states[i].row.value.status) {
      StaysConfirmed(states, actions, i, j);
    }
  }

  ghost predicate NeverTwice(states: seq<State>) {
    forall i :: 0 <= i < |states| ==> states[i].accepted <= 1
  }

  /**
   * Ten minutes is exactly the bound: with sends of up to `d`, smooth runs send at most once if and
   * only if `d` is no more.
   */
  lemma BoundIsExact(d: int)
    ensures (forall states: seq<State>, actions: seq<Action> :: SmoothRun(states, actions, d) ==> NeverTwice(states))
            <==> d <= 600_000
  {
    if d <= SENDING_CLAIM_STALE_MS {
      forall states: seq<State>, actions: seq<Action> | SmoothRun(states, actions, d)
        ensures NeverTwice(states)
      {
        assert SmoothRun(states, actions, SENDING_CLAIM_STALE_MS);
        forall i: nat | i < |states|
          ensures states[i].accepted <= 1
        {
          SentAtMostOnce(states, actions, i, i);
        }
      }
    } else {
      var states, actions := SlowSendsTwice();
      assert SmoothRun(states, actions, d);
      assert !NeverTwice(states);
    }
  }

  lemma Extended(states: seq<State>, actions: seq<Action>, d: int, x: Action)
    requires SmoothRun(states, actions, d) && Enabled(states[|actions|], x) && Smooth(states[|actions|], x)
    requires SendsWithin(Apply(states[|actions|], x), d)
    ensures SmoothRun(states + [Apply(states[|actions|], x)], actions + [x], d)
  {
  }

  /** The first copy of a job has claimed its message. */
  lemma FirstClaim(d: int) returns (states: seq<State>, actions: seq<Action>)
    requires d >= 0
    ensures SmoothRun(states, actions, d) && |states| == 3
    ensures states[2] == State(0, Some(Row(Sending, 0, false)), map[0 := Attempt(0, Waiting)], 1, 0)
  {
    var empty := State(0, None, map[], 0, 0);
    var queued := empty.(row := Some(Row(Queued, 0, false)));
    states, actions := [empty, queued, Apply(queued, Claim)], [Enqueue(false), Claim];
  }

  /** A provider slow to answer lets another copy of the job claim and send too, with nothing failing. */
  lemma SlowSendsTwice() returns (states: seq<State>, actions: seq<Action>)
    ensures SmoothRun(states, actions, SENDING_CLAIM_STALE_MS + 1) && |states| == 7 && states[6].accepted == 2
  {
    var d := SENDING_CLAIM_STALE_MS + 1;
    states, actions := FirstClaim(d);
    var s := states[2];
    Extended(states, actions, d, Tick(d));
    states, actions, s := states + [Apply(s, Tick(d))], actions + [Tick(d)], Apply(s, Tick(d));
    Extended(states, actions, d, Claim);
    states, actions, s := states + [Apply(s, Claim)], actions + [Claim], Apply(s, Claim);
    Extended(states, actions, d, Answered(0, true));
    s := Apply(s, Answered(0, true));
    states, actions := states + [s], actions + [Answered(0, true)];
    Extended(states, actions, d, Answered(1, true));
    states, actions := states + [Apply(s, Answered(1, true))], actions + [Answered(1, true)];
  }

  // ---------- Why every step has to be smooth ----------

  /** Performs a sequence of actions, as long as they are enabled and smooth and no send takes more than ten minutes. */
  ghost function Perform(s: State, path: seq<Action>): Option<State>
    decreases |path|
  {
    if path == [] then Some(s)
    else if Enabled(s, path[0]) && Smooth(s, path[0]) && SendsWithin(Apply(s, path[0]), SENDING_CLAIM_STALE_MS)
    then Perform(Apply(s, path[0]), path[1..])
    else None
  }

  lemma PerformFirst(s: State, x: Action, rest: seq<Action>)
    requires Enabled(s, x) && Smooth(s, x) && SendsWithin(Apply(s, x), SENDING_CLAIM_STALE_MS)
    ensures Perform(s, [x] + rest) == Perform(Apply(s, x), rest)
  {
    assert ([x] + rest)[1..] == rest;
  }

  /** A row that can be claimed leads to one more accepted message. */
  lemma ClaimAndSend(s: State) returns (path: seq<Action>, t: State)
    requires SendsWithin(s, SENDING_CLAIM_STALE_MS) && Enabled(s, Claim)
    ensures Perform(s, path) == Some(t) && t.accepted == s.accepted + 1
  {
    var u := Apply(s, Claim);
    var x := Answered(s.nextId, true);
    t := Apply(u, x);
    path := [Claim] + ([x] + []);
    PerformFirst(s, Claim, [x] + []);
    PerformFirst(u, x, []);
  }

  /** With nothing in flight, so does any row left QUEUED, FAILED or SENDING, once its claim has gone stale. */
  lemma WaitAndSend(s: State) returns (path: seq<Action>, t: State)
    requires s.flying == map[] && s.row.Some? && s.row.value.updatedAt <= s.now && !Confirmed(s.row.value.status)
    ensures Perform(s, path) == Some(t) && t.accepted == s.accepted + 1
  {
    var wait := Tick(SENDING_CLAIM_STALE_MS + 1);
    var rest;
    rest, t := ClaimAndSend(Apply(s, wait));
    path := [wait] + rest;
    PerformFirst(s, wait, rest);
  }

  /**
   * After any step that is not smooth, smooth and timely steps alone can make the provider take a
   * second message. So being smooth is exactly what a step needs to be safe.
   */
  lemma UnsmoothStepSendsTwice(s: State, x: Action) returns (path: seq<Action>, t: State)
    requires Inv(s) && SendsWithin(s, SENDING_CLAIM_STALE_MS) && Enabled(s, x) && !Smooth(s, x)
    ensures Perform(Apply(s, x), path) == Some(t) && t.accepted >= 2
  {
    var u := Apply(s, x);
    if x.Crash? {
      assert forall other :: other in s.flying ==> other == x.id;
      assert u.flying == map[];
      path, t := WaitAndSend(u);
    } else if x.Receipt? {
      assert s.flying == map[];
      path, t := WaitAndSend(u);
    } else if s.flying == map[] {
      path, t := ClaimAndSend(u);
    } else {
      path, t := RetryBesideASend(s);
    }
  }

  /** A retry while a job is sending lets a second one send as well. */
  lemma RetryBesideASend(s: State) returns (path: seq<Action>, t: State)
    requires Inv(s) && SendsWithin(s, SENDING_CLAIM_STALE_MS) && Enabled(s, Retry) && s.flying != map[]
    ensures Perform(Apply(s, Retry), path) == Some(t) && t.accepted >= 2
  {
    var u := Apply(s, Retry);
    var id :| id in s.flying;
    if s.flying[id].answer == Waiting {
      var x := Answered(id, true);
      var rest;
      rest, t := ClaimAndSend(Apply(u, x));
      path := [x] + rest;
      PerformFirst(u, x, rest);
    } else if s.flying[id].answer == Accepted {
      path, t := ClaimAndSend(u);
    } else {
      // The retried send goes through, and then the old job reports its failure
      var c, v := Claim, Apply(u, Claim);
      var x, w := Answered(u.nextId, true), Apply(v, Answered(u.nextId, true));
      var y := Apply(w, Save(id));
      var rest;
      rest, t := ClaimAndSend(y);
      path := [c] + ([x] + ([Save(id)] + rest));
      PerformFirst(w, Save(id), rest);
      PerformFirst(v, x, [Save(id)] + rest);
      PerformFirst(u, c, [x] + ([Save(id)] + rest));
    }
  }

  /**
   * For one: after a crash between the provider's answer and the status write, the message goes out
   * again ten minutes on.
   */
  lemma CrashSendsTwice() returns (states: seq<State>, actions: seq<Action>, path: seq<Action>, t: State)
    ensures SmoothRun(states, actions, SENDING_CLAIM_STALE_MS) && Enabled(states[|actions|], Crash(0))
    ensures Perform(Apply(states[|actions|], Crash(0)), path) == Some(t) && t.accepted == 2
  {
    states, actions := FirstClaim(SENDING_CLAIM_STALE_MS);
    var s := states[2];
    Extended(states, actions, SENDING_CLAIM_STALE_MS, Answered(0, true));
    s := Apply(s, Answered(0, true));
    states, actions := states + [s], actions + [Answered(0, true)];
    assert s.flying - {0} == map[];
    path, t := WaitAndSend(Apply(s, Crash(0)));
  }
}
