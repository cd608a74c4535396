/**
 * Fan-out of one notification to its recipients and the work of one send job
 * (apps/api/src/modules/notifications/notification.service.ts,
 * apps/api/src/modules/notifications/notification.repository.ts, apps/api/src/workers/whatsapp.worker.ts).
 */
module Notifications {
  import opened SendClaims
  import opened Optional

  datatype Target = Target(id: string, phone: string, email: string)

  function Destination(t: Target, whatsApp: bool): string {
    if whatsApp then t.phone else t.email
  }

  /** The targets that have a contact for the channel. */
  function Reached(list: seq<Target>, whatsApp: bool): seq<Target> {
    if list == [] then []
    else (if Destination(list[0], whatsApp) != "" then [list[0]] else []) + Reached(list[1..], whatsApp)
  }

  /** Those of them without an opt-out on their number. */
  function OptedIn(list: seq<Target>, optedOut: set<string>): seq<Target> {
    if list == [] then []
    else (if list[0].phone !in optedOut then [list[0]] else []) + OptedIn(list[1..], optedOut)
  }

  /** The first recipient has the request's own key, every other one a key of their own. */
  function KeyOf(base: string, targets: seq<Target>, i: nat): string
    requires i < |targets|
  {
    if i == 0 then base else base + "." + targets[i].id
  }

  predicate OverLimit(i: nat, allowance: Option<nat>) {
    allowance.Some? && i >= allowance.value
  }

  /** The rows after the first `n` recipients; creating the row of an index in `down` fails. */
  function RowsAfter(
    rows: map<string, Row>, base: string, targets: seq<Target>, allowance: Option<nat>, now: int, down: set<nat>,
        n: nat): map<string, Row>
    requires n <= |targets|
  {
    if n == 0 then rows
    else
      var before := RowsAfter(rows, base, targets, allowance, now, down, n - 1);
      if n - 1 in down then before
      else AddRow(before, KeyOf(base, targets, n - 1), OverLimit(n - 1, allowance), now)
  }

  /** The upsert: an existing row stays as it is. */
  function AddRow(rows: map<string, Row>, key: string, overLimit: bool, now: int): map<string, Row> {
    rows[key := Created(if key in rows then Some(rows[key]) else None, overLimit, now)]
  }

  /** The jobs after the first `n` recipients: none for those over the limit or whose write failed. */
  function JobsAfter(jobs: set<string>, base: string, targets: seq<Target>, allowance: Option<nat>, down: set<nat>,
      n: nat): set<string>
    requires n <= |targets|
  {
    if n == 0 then jobs
    else
      var before := JobsAfter(jobs, base, targets, allowance, down, n - 1);
      if n - 1 in down || OverLimit(n - 1, allowance) then before else before + {KeyOf(base, targets, n - 1)}
  }

  // ---------- What the fan-out guarantees ----------

  /** Different recipients have different keys. */
  lemma KeysDiffer(base: string, targets: seq<Target>, i: nat, j: nat)
    requires i < j < |targets| && targets[i].id != targets[j].id
    ensures KeyOf(base, targets, i) != KeyOf(base, targets, j)
  {
    if i == 0 {
      assert |KeyOf(base, targets, j)| > |base|;
    } else {
      var prefix := base + ".";
      assert targets[i].id == (prefix + targets[i].id)[|prefix|..];
      assert targets[j].id == (prefix + targets[j].id)[|prefix|..];
    }
  }

  /** Rows that existed are untouched, and the new ones are those of the recipients whose write worked. */
  lemma {:induction false} RowsOfRecipients(
    rows: map<string, Row>, base: string, targets: seq<Target>, allowance: Option<nat>, now: int, down: set<nat>,
        n: nat, key: string)
    requires n <= |targets|
    ensures var after := RowsAfter(rows, base, targets, allowance, now, down, n);
            && (key in after <==> key in rows || exists i :: 0 <= i < n && i !in down && KeyOf(base, targets, i) == key)
            && (key in rows ==> key in after && after[key] == rows[key])
  {
    if n > 0 {
      RowsOfRecipients(rows, base, targets, allowance, now, down, n - 1, key);
      assert n - 1 !in down && KeyOf(base, targets, n - 1) == key ==>
          key in RowsAfter(rows, base, targets, allowance, now, down, n);
    }
  }

  /**
   * Recipient `j` of a second delivery gets a row: it reaches them, they had none from before, and
   * the first delivery gave them none. There the heads of both lists share a key, and further down
   * a recipient has the same key wherever they stand; `missed` are the indices whose write failed.
   */
  ghost predicate NewRecipient(
    rows: map<string, Row>, base: string, list: seq<Target>, again: seq<Target>, missed: set<nat>,
    down: set<nat>, j: nat)
    requires j < |again|
  {
    && j !in down && KeyOf(base, again, j) !in rows
    && if j == 0 then 0 in missed
       else forall i :: 0 < i < |list| && i !in missed ==> list[i].id != again[j].id
  }

  /** In a row's key the recipient can be read off. */
  lemma SameKey(base: string, list: seq<Target>, again: seq<Target>, i: nat, j: nat)
    requires i < |list| && 0 < j < |again|
    ensures KeyOf(base, list, i) == KeyOf(base, again, j) <==> i > 0 && list[i].id == again[j].id
  {
    var prefix := base + ".";
    assert again[j].id == KeyOf(base, again, j)[|prefix|..];
    if i == 0 {
      assert |KeyOf(base, again, j)| > |base|;
    } else {
      assert list[i].id == KeyOf(base, list, i)[|prefix|..];
    }
  }

  /**
   * Delivering an event again, with whatever list, allowance and failing writes, changes nothing
   * if and only if every recipient it reaches has a row already.
   */
  lemma RedeliveryAddsNothing(
    rows: map<string, Row>, base: string, list: seq<Target>, again: seq<Target>,
    allowance: Option<nat>, now: int, missed: set<nat>, allowanceThen: Option<nat>, later: int, down: set<nat>)
    requires list != [] && again != []
    ensures var after := RowsAfter(rows, base, list, allowance, now, missed, |list|);
            RowsAfter(after, base, again, allowanceThen, later, down, |again|) == after
            <==> forall j :: 0 <= j < |again| ==> !NewRecipient(rows, base, list, again, missed, down, j)
  {
    var after := RowsAfter(rows, base, list, allowance, now, missed, |list|);
    var twice := RowsAfter(after, base, again, allowanceThen, later, down, |again|);
    forall j | 0 <= j < |again| && j !in down
      ensures KeyOf(base, again, j) in twice
      ensures KeyOf(base, again, j) in after <==> !NewRecipient(rows, base, list, again, missed, down, j)
    {
      RowsOfRecipients(after, base, again, allowanceThen, later, down, |again|, KeyOf(base, again, j));
      HasRow(rows, base, list, again, allowance, now, missed, down, j);
    }
    forall key
      ensures key in after ==> key in twice && twice[key] == after[key]
      ensures key in twice && key !in after ==>
                exists j :: 0 <= j < |again| && j !in down && KeyOf(base, again, j) == key
    {
      RowsOfRecipients(after, base, again, allowanceThen, later, down, |again|, key);
    }
    if forall j :: 0 <= j < |again| ==> !NewRecipient(rows, base, list, again, missed, down, j) {
      assert twice.Keys == after.Keys;
    }
  }

  lemma HasRow(
    rows: map<string, Row>, base: string, list: seq<Target>, again: seq<Target>,
    allowance: Option<nat>, now: int, missed: set<nat>, down: set<nat>, j: nat)
    requires list != [] && j < |again| && j !in down
    ensures KeyOf(base, again, j) in RowsAfter(rows, base, list, allowance, now, missed, |list|)
            <==> !NewRecipient(rows, base, list, again, missed, down, j)
  {
    var key := KeyOf(base, again, j);
    RowsOfRecipients(rows, base, list, allowance, now, missed, |list|, key);
    forall i | 0 <= i < |list|
      ensures KeyOf(base, list, i) == key <==> if j == 0 then i == 0 else i > 0 && list[i].id == again[j].id
    {
      if j == 0 {
        assert i > 0 ==> |KeyOf(base, list, i)| > |base|;
      } else {
        SameKey(base, list, again, i, j);
      }
    }
  }

  /** For an event delivered for the first time before: no row is added exactly when nobody new comes after the head. */
  lemma SecondListAddsNothing(
    base: string, list: seq<Target>, again: seq<Target>, allowance: Option<nat>, now: int,
    allowanceThen: Option<nat>, later: int)
    requires list != [] && again != []
    ensures var after := RowsAfter(map[], base, list, allowance, now, {}, |list|);
            RowsAfter(after, base, again, allowanceThen, later, {}, |again|) == after
            <==> forall j :: 0 < j < |again| ==> exists i :: 0 < i < |list| && list[i].id == again[j].id
  {
    RedeliveryAddsNothing(map[], base, list, again, allowance, now, {}, allowanceThen, later, {});
    forall j: nat | j < |again|
      ensures !NewRecipient(map[], base, list, again, {}, {}, j) <==>
              (0 < j ==> exists i :: 0 < i < |list| && list[i].id == again[j].id)
    {
    }
  }

  /** In particular with the same list. */
  lemma DeliveredTwiceIsOnce(
    rows: map<string, Row>, base: string, targets: seq<Target>,
    allowance: Option<nat>, now: int, again: Option<nat>, later: int, down: set<nat>)
    ensures var after := RowsAfter(rows, base, targets, allowance, now, {}, |targets|);
            RowsAfter(after, base, targets, again, later, down, |targets|) == after
  {
    if targets != [] {
      RedeliveryAddsNothing(rows, base, targets, targets, allowance, now, {}, again, later, down);
    }
  }

  /** And not in another order: whoever was first gets a second row and a second message. */
  lemma ReorderedListAddsARow(base: string, a: Target, b: Target, now: int)
    requires a.id != b.id
    ensures var once := RowsAfter(map[], base, [a, b], None, now, {}, 2);
            var twice := RowsAfter(once, base, [b, a], None, now, {}, 2);
            base in once && base + "." + a.id !in once && base + "." + a.id in twice
  {
    var once := RowsAfter(map[], base, [a, b], None, now, {}, 2);
    assert KeyOf(base, [b, a], 1) == base + "." + a.id && KeyOf(base, [a, b], 0) == base;
    RowsOfRecipients(map[], base, [a, b], None, now, {}, 2, base);
    HasRow(map[], base, [a, b], [b, a], None, now, {}, {}, 1);
    assert NewRecipient(map[], base, [a, b], [b, a], {}, {}, 1);
    RowsOfRecipients(once, base, [b, a], None, now, {}, 2, base + "." + a.id);
  }

  /** Jobs are only added for recipients within the allowance, each with their own key. */
  lemma {:induction false} JobsWithinAllowance(
    jobs: set<string>, base: string, targets: seq<Target>, allowance: Option<nat>, down: set<nat>, n: nat, key: string)
    requires n <= |targets|
    ensures key in JobsAfter(jobs, base, targets, allowance, down, n) <==>
            || key in jobs
            || exists i :: 0 <= i < n && i !in down && !OverLimit(i, allowance) && KeyOf(base, targets, i) == key
  {
    if n > 0 {
      JobsWithinAllowance(jobs, base, targets, allowance, down, n - 1, key);
      assert n - 1 !in down && !OverLimit(n - 1, allowance) && KeyOf(base, targets, n - 1) == key ==>
          key in JobsAfter(jobs, base, targets, allowance, down, n);
    }
  }

  // ---------- The operations as they run ----------

  /**
   * A request: its key, its channel, whether it answers someone or goes to the owner, and the
   * opt-outs and counts it finds.
   */
  datatype Request = Request(
    key: string, whatsApp: bool, isReply: bool, toOwner: bool, optedOut: set<string>, dailyLimit: nat, sentToday: nat)

  datatype EnqueueResult = NoRecipients | AllOptedOut | Failed | Enqueued(first: string)

  datatype JobResult = Skipped | JobSent | JobFailed

  function TargetsOf(resolved: seq<Target>, q: Request): seq<Target> {
    var reached := Reached(resolved, q.whatsApp);
    if q.whatsApp && !q.isReply then OptedIn(reached, q.optedOut) else reached
  }

  function AllowanceOf(q: Request): Option<nat> {
    if q.whatsApp && !q.isReply && !q.toOwner
    then Some(if q.dailyLimit < q.sentToday then 0 else q.dailyLimit - q.sentToday)
    else None
  }

  /** Someone with a contact for the channel; on WhatsApp, unless it is a reply, without an opt-out. */
  predicate Wanted(t: Target, q: Request) {
    && (if q.whatsApp then t.phone != "" else t.email != "")
    && (q.whatsApp && !q.isReply ==> t.phone !in q.optedOut)
  }

  lemma FirstTarget(resolved: seq<Target>, q: Request)
    requires resolved != []
    ensures TargetsOf(resolved, q) ==
            (if Wanted(resolved[0], q) then [resolved[0]] else []) + TargetsOf(resolved[1..], q)
  {
    var first, rest := resolved[0], Reached(resolved[1..], q.whatsApp);
    assert ([first] + rest)[1..] == rest && [] + rest == rest;
    assert [] + OptedIn(rest, q.optedOut) == OptedIn(rest, q.optedOut);
  }

  /** `at` are places in the list, in order, and exactly those of the people wanted. */
  ghost predicate PlacesOfWanted(resolved: seq<Target>, q: Request, at: seq<nat>) {
    && (forall j, k :: 0 <= j < k < |at| ==> at[j] < at[k])
    && (forall i :: i in at <==> 0 <= i < |resolved| && Wanted(resolved[i], q))
  }

  /** The recipients are exactly the people wanted, in the order in which they were resolved. */
  lemma {:induction false} TargetsAreWanted(resolved: seq<Target>, q: Request) returns (at: seq<nat>)
    ensures PlacesOfWanted(resolved, q, at) && FoundAt(resolved, TargetsOf(resolved, q), at)
  {
    at := [];
    if resolved != [] {
      var later := TargetsAreWanted(resolved[1..], q);
      at := OnePlaceMore(resolved, q, later);
      FirstTarget(resolved, q);
      OneFoundMore(resolved, TargetsOf(resolved[1..], q), later, Wanted(resolved[0], q));
    }
  }

  ghost predicate FoundAt(resolved: seq<Target>, targets: seq<Target>, at: seq<nat>) {
    |at| == |targets| && forall k :: 0 <= k < |at| ==> at[k] < |resolved| && targets[k] == resolved[at[k]]
  }

  function Moved(later: seq<nat>): seq<nat> {
    seq(|later|, k requires 0 <= k < |later| => later[k] + 1)
  }

  lemma OneFoundMore(resolved: seq<Target>, rest: seq<Target>, later: seq<nat>, first: bool)
    requires resolved != [] && FoundAt(resolved[1..], rest, later)
    ensures FoundAt(resolved, (if first then [resolved[0]] else []) + rest, (if first then [0] else []) + Moved(later))
  {
    assert forall k :: 0 <= k < |later| ==> Moved(later)[k] == later[k] + 1 && rest[k] == resolved[later[k] + 1];
  }

  lemma OnePlaceMore(resolved: seq<Target>, q: Request, later: seq<nat>) returns (at: seq<nat>)
    requires resolved != [] && PlacesOfWanted(resolved[1..], q, later)
    ensures PlacesOfWanted(resolved, q, at)
    ensures at == (if Wanted(resolved[0], q) then [0] else []) + Moved(later)
  {
    var moved := Moved(later);
    forall i: nat
      ensures i in moved <==> i > 0 && i - 1 in later
    {
      if i > 0 && i - 1 in later {
        var k :| 0 <= k < |later| && later[k] == i - 1;
        assert moved[k] == i;
      }
    }
    at := (if Wanted(resolved[0], q) then [0] else []) + moved;
  }

  /** Past the head nobody comes twice. */
  ghost predicate NobodyTwice(targets: seq<Target>) {
    forall i, j :: 0 < i < j < |targets| ==> targets[i].id != targets[j].id
  }

  lemma OwnKey(base: string, targets: seq<Target>, i: nat, j: nat)
    requires NobodyTwice(targets) && i < |targets| && j < |targets| && i != j
    ensures KeyOf(base, targets, i) != KeyOf(base, targets, j)
  {
    var a, b := if i < j then i else j, if i < j then j else i;
    if a == 0 {
      assert |KeyOf(base, targets, b)| > |base|;
    } else {
      KeysDiffer(base, targets, a, b);
    }
  }

  /**
   * Each institute's daily share: recipient `i` of a WhatsApp message that is neither a reply nor
   * for the owner gets a job exactly when fewer than the limit come before, counting those sent
   * today; nobody else is held back. A write that fails leaves no job.
   */
  lemma JobsWithinDailyLimit(jobs: set<string>, q: Request, targets: seq<Target>, down: set<nat>, i: nat)
    requires NobodyTwice(targets) && i < |targets| && KeyOf(q.key, targets, i) !in jobs
    ensures KeyOf(q.key, targets, i) in JobsAfter(jobs, q.key, targets, AllowanceOf(q), down, |targets|) <==>
            i !in down && (q.whatsApp && !q.isReply && !q.toOwner ==> q.sentToday + i < q.dailyLimit)
  {
    JobsWithinAllowance(jobs, q.key, targets, AllowanceOf(q), down, |targets|, KeyOf(q.key, targets, i));
    forall j: nat | j < |targets| && j != i
      ensures KeyOf(q.key, targets, j) != KeyOf(q.key, targets, i)
    {
      OwnKey(q.key, targets, i, j);
    }
  }

  /** And their new rows: QUEUED for those, FAILED at once for the ones held back. */
  lemma {:induction false} RowsWithinDailyLimit(
    rows: map<string, Row>, q: Request, targets: seq<Target>, now: int, down: set<nat>, n: nat, i: nat)
    requires NobodyTwice(targets) && i < n <= |targets| && i !in down && KeyOf(q.key, targets, i) !in rows
    ensures var after := RowsAfter(rows, q.key, targets, AllowanceOf(q), now, down, n);
            var held := q.whatsApp && !q.isReply && !q.toOwner && q.sentToday + i >= q.dailyLimit;
            && KeyOf(q.key, targets, i) in after
            && after[KeyOf(q.key, targets, i)] == Row(if held then Status.Failed else Queued, now, false)
  {
    if i < n - 1 {
      RowsWithinDailyLimit(rows, q, targets, now, down, n - 1, i);
      OwnKey(q.key, targets, i, n - 1);
    } else {
      var key := KeyOf(q.key, targets, i);
      RowsOfRecipients(rows, q.key, targets, AllowanceOf(q), now, down, i, key);
      forall j: nat | j < i
        ensures KeyOf(q.key, targets, j) != key
      {
        OwnKey(q.key, targets, i, j);
      }
    }
  }

  /** So a new row is always for somebody wanted, under the request's key or their own. */
  lemma RowsAreForWanted(rows: map<string, Row>, resolved: seq<Target>, q: Request, now: int, down: set<nat>, n: nat,
      key: string)
    returns (i: nat)
    requires n <= |TargetsOf(resolved, q)|
    requires key !in rows
    requires key in RowsAfter(rows, q.key, TargetsOf(resolved, q), AllowanceOf(q), now, down, n)
    ensures i < |resolved| && Wanted(resolved[i], q) && (key == q.key || key == q.key + "." + resolved[i].id)
  {
    var targets := TargetsOf(resolved, q);
    var at := TargetsAreWanted(resolved, q);
    RowsOfRecipients(rows, q.key, targets, AllowanceOf(q), now, down, n, key);
    var k :| 0 <= k < n && k !in down && KeyOf(q.key, targets, k) == key;
    i := at[k];
  }

  class NotificationCentre {
    var rows: map<string, Row>
    var jobs: set<string>
    /** The messages handed to the provider, oldest first. */
    ghost var messages: seq<string>

    constructor ()
      ensures rows == map[] && jobs == {} && messages == []
    {
      rows, jobs, messages := map[], {}, [];
    }

    method CreateHistory(key: string, overLimit: bool, now: int)
      modifies this`rows
      ensures rows == AddRow(old(rows), key, overLimit, now)
    {
      if key !in rows {
        rows := rows[key := Row(if overLimit then Status.Failed else Queued, now, false)];
      } else {
        assert rows[key := rows[key]] == rows;
      }
    }

    /**
     * `enqueueNotification`. The write of a row fails for indices in `dbDown`, adding its job for
     * those in `queueDown`; for anyone but the first recipient that is logged and passed over.
     */
    method EnqueueNotification(resolved: seq<Target>, q: Request, now: int, dbDown: set<nat>, queueDown: set<nat>)
      returns (r: EnqueueResult)
      modifies this`rows, this`jobs
      ensures r == NoRecipients <==> Reached(resolved, q.whatsApp) == []
      ensures r == AllOptedOut <==> Reached(resolved, q.whatsApp) != [] && TargetsOf(resolved, q) == []
      ensures r == NoRecipients || r == AllOptedOut ==> rows == old(rows) && jobs == old(jobs)
      ensures r == EnqueueResult.Failed <==>
                TargetsOf(resolved, q) != [] && (0 in dbDown || (0 in queueDown && !OverLimit(0, AllowanceOf(q))))
      ensures r == EnqueueResult.Failed ==>
                && jobs == old(jobs)
                && rows == RowsAfter(old(rows), q.key, TargetsOf(resolved, q), AllowanceOf(q), now, dbDown, 1)
      ensures r.Enqueued? ==>
                var targets := TargetsOf(resolved, q);
                && r.first == q.key
                && rows == RowsAfter(old(rows), q.key, targets, AllowanceOf(q), now, dbDown, |targets|)
                && jobs == JobsAfter(old(jobs), q.key, targets, AllowanceOf(q), dbDown + queueDown, |targets|)
    {
      var targets := Reached(resolved, q.whatsApp);
      if targets == [] {
        return NoRecipients;
      }
      if q.whatsApp && !q.isReply {
        targets := OptedIn(targets, q.optedOut);
        if targets == [] {
          return AllOptedOut;
        }
      }
      var allowance: Option<nat> := None;
      if q.whatsApp && !q.isReply && !q.toOwner {
        allowance := Some(if q.dailyLimit < q.sentToday then 0 else q.dailyLimit - q.sentToday);
      }
      var ok := FanOut(q.key, targets, allowance, now, dbDown, queueDown);
      r := if ok then Enqueued(q.key) else EnqueueResult.Failed;
    }

    /** The loop over the recipients. */
    method FanOut(base: string, targets: seq<Target>, allowance: Option<nat>, now: int, dbDown: set<nat>,
        queueDown: set<nat>)
      returns (ok: bool)
      requires targets != []
      modifies this`rows, this`jobs
      ensures !ok <==> 0 in dbDown || (0 in queueDown && !OverLimit(0, allowance))
      ensures rows == RowsAfter(old(rows), base, targets, allowance, now, dbDown, if ok then |targets| else 1)
      ensures jobs == JobsAfter(old(jobs), base, targets, allowance, dbDown + queueDown, if ok then |targets| else 0)
    {
      for i := 0 to |targets|
        invariant rows == RowsAfter(old(rows), base, targets, allowance, now, dbDown, i)
        invariant jobs == JobsAfter(old(jobs), base, targets, allowance, dbDown + queueDown, i)
        invariant i > 0 ==> !(0 in dbDown || (0 in queueDown && !OverLimit(0, allowance)))
      {
        var key := if i == 0 then base else base + "." + targets[i].id;
        var overLimit := allowance.Some? && i >= allowance.value;
        if i in dbDown {
          if i == 0 {
            return false;
          }
          continue;
        }
        CreateHistory(key, overLimit, now);
        if overLimit {
          continue;
        }
        if i in queueDown {
          if i == 0 {
            return false;
          }
          continue;
        }
        jobs := jobs + {key};
      }
      ok := true;
    }

    method ClaimForSending(key: string, now: int) returns (claimed: bool)
      modifies this`rows
      ensures claimed <==> key in old(rows) && Claimable(old(rows)[key], now)
      ensures rows == if claimed then old(rows)[key := Written(old(rows)[key], Sending, now)] else old(rows)
    {
      claimed := false;
      if key in rows {
        var row := rows[key];
        var stale := row.status == Sending && row.updatedAt < now - SENDING_CLAIM_STALE_MS;
        if row.status == Queued || row.status == Status.Failed || stale {
          rows := rows[key := Written(row, Sending, now)];
          claimed := true;
        }
      }
    }

    /** Hands the message to the provider: foreign code. */
    method SendMessage(key: string, ok: bool) returns (accepted: bool)
      modifies this`messages
      ensures messages == old(messages) + [key] && accepted == ok
    {
      messages := messages + [key];
      accepted := ok;
    }

    /** One copy of a send job, started at `now` and saved at `later`; `ok` is the provider's answer. */
    method ProcessJob(key: string, ok: bool, now: int, later: int) returns (r: JobResult)
      modifies this`rows, this`messages
      ensures r == Skipped <==> !(key in old(rows) && Claimable(old(rows)[key], now))
      ensures r == Skipped ==> rows == old(rows) && messages == old(messages)
      ensures r != Skipped ==>
                && r == (if ok then JobSent else JobFailed) && messages == old(messages) + [key]
                && rows == old(rows)[key := JobRow(old(rows)[key], ok, now, later)]
    {
      var claimed := ClaimForSending(key, now);
      if !claimed {
        return Skipped;
      }
      var accepted := SendMessage(key, ok);
      rows := rows[key := Written(rows[key], if accepted then Sent else Status.Failed, later)];
      r := if accepted then JobSent else JobFailed;
    }
  }

  /** The row a claimed job leaves behind. */
  function JobRow(r: Row, ok: bool, now: int, later: int): Row {
    Written(Written(r, Sending, now), if ok then Sent else Status.Failed, later)
  }

  /** A job that runs alone takes the protocol's steps: claim, answer, save. */
  lemma JobIsClaimAnswerSave(r: Row, ok: bool, now: int, ms: nat)
    requires Claimable(r, now)
    ensures var s0 := State(now, Some(r), map[], 0, 0);
            var s1 := Apply(s0, Claim);
            var s2 := Apply(s1, Answered(0, ok));
            var s3 := Apply(s2, Tick(ms));
            Enabled(s3, Save(0)) && Apply(s3, Save(0)).row == Some(JobRow(r, ok, now, now + ms))
            && Apply(s3, Save(0)).accepted == if ok then 1 else 0
  {
  }
}
