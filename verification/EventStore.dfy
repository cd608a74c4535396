/**
 * The outbox table `domain_events` (apps/api/src/events/event-store.ts). Each method of
 * PrismaEventStore is one SQL statement, so one atomic step. Times are milliseconds; the
 * functions on a single row are shared with the interleaving model in EventProtocol.
 */
module EventStore {

  const MAX_EVENT_ATTEMPTS: nat := 10
  const STALE_PENDING_MS := 120_000
  const LEASE_MS := 300_000
  const BACKOFF_CAP_MS := 3_600_000

  datatype Status = Pending | Dispatched | Failed | Dead

  /** One row. `completed_handlers` is kept duplicate-free by SQL DISTINCT: a set. */
  datatype Row = Row(
    name: string, status: Status, attempts: nat, completed: set<string>, next: int, created: int)

  function Pow2(n: nat): (p: nat)
    ensures p >= 1
  {
    if n == 0 then 1 else 2 * Pow2(n - 1)
  }

  /** The wait that `markResult` writes, from the attempts before this one. */
  function Backoff(attempts: nat): (ms: int)
    ensures 30_000 <= ms <= BACKOFF_CAP_MS
  {
    var secs := 30 * Pow2(attempts);
    if secs <= 3600 then 1000 * secs else BACKOFF_CAP_MS
  }

  /** The schedule: 30 s first, then twice the last wait until the cap. */
  lemma BackoffSchedule(attempts: nat)
    ensures Backoff(0) == 30_000
    ensures Backoff(attempts + 1) == if 2 * Backoff(attempts) <= BACKOFF_CAP_MS then 2 * Backoff(attempts)
        else BACKOFF_CAP_MS
  {
  }

  /** The row `record` inserts. */
  function Recorded(name: string, now: int): Row {
    Row(name, Pending, 0, {}, now, now)
  }

  /** The UPDATE of `markResult`; the right-hand sides read the old row. */
  function Marked(row: Row, succeeded: set<string>, failures: nat, now: int): Row {
    row.(completed := row.completed + succeeded,
         attempts := row.attempts + 1,
         status := if failures == 0 then Dispatched
                   else if row.attempts + 1 >= MAX_EVENT_ATTEMPTS then Dead
                   else Failed,
         next := now + Backoff(row.attempts))
  }

  /** So the first attempt at a recorded event writes 30 s, and each further one twice the last wait up to an hour. */
  lemma WaitsWritten(
    name: string, created: int, row: Row, s: set<string>, r: set<string>, f: nat, g: nat, t: int, u: int)
    ensures Marked(Recorded(name, created), s, f, t).next == t + 30_000
    ensures var once := Marked(row, s, f, t);
            var twice := Marked(once, r, g, u);
            twice.next - u == if once.next - t <= 1_800_000 then 2 * (once.next - t) else 3_600_000
  {
    BackoffSchedule(row.attempts);
  }

  /** The WHERE clause of `claimDue`. */
  predicate Due(row: Row, now: int) {
    && row.next <= now
    && (row.status == Failed || (row.status == Pending && row.created <= now - STALE_PENDING_MS))
  }

  function Leased(row: Row, now: int): Row {
    row.(next := now + LEASE_MS)
  }

  function DueIds(rows: map<string, Row>, now: int): set<string> {
    set id | id in rows && Due(rows[id], now)
  }

  function LeaseAll(rows: map<string, Row>, ids: set<string>, now: int): map<string, Row> {
    map id | id in rows :: if id in ids then Leased(rows[id], now) else rows[id]
  }

  /** `ids` are due, and no due row left out has waited longer than one taken. */
  ghost predicate OldestDue(rows: map<string, Row>, ids: set<string>, now: int) {
    && ids <= DueIds(rows, now)
    && (forall id, other :: id in ids && other in DueIds(rows, now) - ids ==> rows[id].next <= rows[other].next)
  }

  lemma LeaseNothing(rows: map<string, Row>, now: int)
    ensures LeaseAll(rows, {}, now) == rows
    ensures DueIds(rows, now) - {} == DueIds(rows, now)
  {
  }

  /** Taking the oldest row that is still due extends a partial claim by one. */
  lemma LeaseOneMore(before: map<string, Row>, claimed: set<string>, id: string, now: int)
    requires OldestDue(before, claimed, now)
    requires id in DueIds(before, now) - claimed
    requires forall o :: o in DueIds(before, now) - claimed ==> before[id].next <= before[o].next
    ensures OldestDue(before, claimed + {id}, now)
    ensures LeaseAll(before, claimed + {id}, now) == LeaseAll(before, claimed, now)[id := Leased(before[id], now)]
    ensures DueIds(LeaseAll(before, claimed + {id}, now), now) == DueIds(before, now) - (claimed + {id})
    ensures |DueIds(before, now) - (claimed + {id})| == |DueIds(before, now) - claimed| - 1
  {
    assert DueIds(before, now) - (claimed + {id}) == DueIds(before, now) - claimed - {id};
  }

  class PrismaEventStore {
    var rows: map<string, Row>

    constructor ()
      ensures rows == map[]
    {
      rows := map[];
    }

    /** INSERT ... ON CONFLICT (id) DO NOTHING. */
    method Record(id: string, name: string, now: int)
      modifies this
      ensures rows == if id in old(rows) then old(rows) else old(rows)[id := Recorded(name, now)]
    {
      if id !in rows {
        rows := rows[id := Recorded(name, now)];
      }
    }

    /** UPDATE ... WHERE id: an unknown id updates nothing. */
    method MarkResult(id: string, succeeded: set<string>, failures: set<string>, now: int)
      modifies this
      ensures rows == if id !in old(rows) then old(rows)
                      else old(rows)[id := Marked(old(rows)[id], succeeded, |failures|, now)]
    {
      if id in rows {
        rows := rows[id := Marked(rows[id], succeeded, |failures|, now)];
      }
    }

    /**
     * Leases up to `limit` due rows, oldest first, and leaves every other row alone. UPDATE ...
     * RETURNING gives the claimed rows in no particular order: a set.
     */
    method ClaimDue(limit: nat, now: int) returns (claimed: set<string>)
      modifies this
      ensures OldestDue(old(rows), claimed, now)
      ensures |claimed| == var due := |DueIds(old(rows), now)|; if due < limit then due else limit
      ensures rows == LeaseAll(old(rows), claimed, now)
      ensures DueIds(rows, now) == DueIds(old(rows), now) - claimed
    {
      claimed := {};
      LeaseNothing(rows, now);
      while |claimed| < limit && DueIds(rows, now) != {}
        invariant OldestDue(old(rows), claimed, now)
        invariant |claimed| <= limit
        invariant rows == LeaseAll(old(rows), claimed, now)
        invariant DueIds(rows, now) == DueIds(old(rows), now) - claimed
        invariant |DueIds(rows, now)| == |DueIds(old(rows), now)| - |claimed|
        decreases limit - |claimed|
      {
        var id := Oldest(now);
        LeaseOneMore(old(rows), claimed, id, now);
        rows := rows[id := Leased(rows[id], now)];
        claimed := claimed + {id};
      }
    }

    /** ORDER BY next_attempt_at, first row. */
    method Oldest(now: int) returns (id: string)
      requires DueIds(rows, now) != {}
      ensures id in DueIds(rows, now)
      ensures forall other :: other in DueIds(rows, now) ==> rows[id].next <= rows[other].next
    {
      var left := DueIds(rows, now);
      id :| id in left;
      left := left - {id};
      while left != {}
        invariant left <= DueIds(rows, now)
        invariant id in DueIds(rows, now)
        invariant forall o :: o in DueIds(rows, now) && o !in left ==> rows[id].next <= rows[o].next
        decreases |left|
      {
        var other :| other in left;
        left := left - {other};
        if rows[other].next < rows[id].next {
          id := other;
        }
      }
    }
  }
}
