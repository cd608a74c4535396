/**
 * The event bus and the relay's drain loop (apps/api/src/events/event-bus.ts,
 * apps/api/src/workers/event-relay.worker.ts). Handlers are foreign code: which runs fail, and
 * which writes are lost, are inputs of every method. The clock stands still while one method runs;
 * EventProtocol lets it move between the statements.
 */
module EventBus {
  import opened EventStore
  import Text

  const BATCH_SIZE: nat := 100

  /** The name an unnamed subscriber gets: "EventName#0", "EventName#1", ... */
  function DefaultName(eventName: string, index: nat): string {
    eventName + "#" + Text.Decimal(index)
  }

  lemma DefaultNamesDiffer(eventName: string, i: nat, j: nat)
    requires i != j
    ensures DefaultName(eventName, i) != DefaultName(eventName, j)
  {
    if DefaultName(eventName, i) == DefaultName(eventName, j) {
      var p := |eventName| + 1;
      assert DefaultName(eventName, i)[p..] == Text.Decimal(i);
      assert DefaultName(eventName, j)[p..] == Text.Decimal(j);
      Text.DecimalInjective(i, j);
    }
  }

  /** One handler execution: event, handler, and whether it succeeded. */
  datatype Execution = Execution(event: string, handler: string, ok: bool)

  /** What goes wrong while a method runs: handlers that fail on an event, and events whose outcome is not saved. */
  datatype Faults = Faults(runs: set<(string, string)>, saves: set<string>) {
    function Good(event: string, todo: set<string>): set<string> {
      set h | h in todo && (event, h) !in runs
    }
    function Bad(event: string, todo: set<string>): set<string> {
      set h | h in todo && (event, h) in runs
    }
  }

  /** `later` extends `earlier` by one run of each handler in `todo` on this event, with its result. */
  ghost predicate RanOnce(earlier: multiset<Execution>, later: multiset<Execution>, event: string,
                          todo: set<string>, f: Faults) {
    forall r: Execution :: later[r] == earlier[r] +
      if r.event == event && r.handler in todo && r.ok == ((event, r.handler) !in f.runs) then 1 else 0
  }

  lemma RunsGrow(start: multiset<Execution>, sofar: multiset<Execution>, event: string, done: set<string>,
                 f: Faults, h: string, ok: bool)
    requires RanOnce(start, sofar, event, done, f) && h !in done && ok == ((event, h) !in f.runs)
    ensures RanOnce(start, sofar + multiset{Execution(event, h, ok)}, event, done + {h}, f)
  {
  }

  function Registered(handlers: map<string, seq<string>>, eventName: string): seq<string> {
    if eventName in handlers then handlers[eventName] else []
  }

  function Names(registered: seq<string>): set<string> {
    set h | h in registered
  }

  /** The registered handlers that the row does not list as completed. */
  function Pending(row: Row, handlers: map<string, seq<string>>): set<string> {
    Names(Registered(handlers, row.name)) - row.completed
  }

  /**
   * The row after the outcome of a run of `todo` is saved: the handlers that succeeded are
   * completed, it counts as one attempt, and it is DISPATCHED exactly when none failed.
   */
  ghost predicate Saved(before: Row, after: Row, id: string, todo: set<string>, f: Faults, now: int) {
    && after.name == before.name && after.created == before.created
    && (forall h :: h in after.completed <==> h in before.completed || (h in todo && (id, h) !in f.runs))
    && after.attempts == before.attempts + 1
    && (after.status == Dispatched <==> forall h :: h in todo ==> (id, h) !in f.runs)
    && (after.status != Dispatched ==> after.status == if after.attempts >= 10 then Dead else Failed)
    && after.next == now + Backoff(before.attempts)
  }

  lemma MarkedIsSaved(before: Row, id: string, todo: set<string>, f: Faults, now: int)
    ensures Saved(before, Marked(before, f.Good(id, todo), |f.Bad(id, todo)|, now), id, todo, f, now)
  {
    if f.Bad(id, todo) == {} {
      assert forall h :: h in todo && (id, h) in f.runs ==> h in f.Bad(id, todo);
    }
  }

  /** A claimed row after its attempt: every pending handler's result is saved, or only the lease is left. */
  ghost predicate Attempted(before: Row, after: Row, id: string, handlers: map<string, seq<string>>, f: Faults,
                            now: int) {
    if id in f.saves then after == before.(next := now + LEASE_MS)
    else Saved(before, after, id, Pending(before, handlers), f, now)
  }

  /** This execution belongs to an attempt at one of the claimed events, and has the handler's result. */
  ghost predicate Owing(before: map<string, Row>, claimed: set<string>, handlers: map<string, seq<string>>,
                        f: Faults, r: Execution) {
    && r.event in claimed && r.event in before
    && r.handler in Pending(before[r.event], handlers)
    && r.ok == ((r.event, r.handler) !in f.runs)
  }

  /**
   * What one relay batch, or a round of them, does: every claimed event is attempted once, every
   * handler pending at its claim runs once, no other row changes and nothing else runs.
   */
  ghost predicate Round(before: map<string, Row>, after: map<string, Row>, runs0: multiset<Execution>,
                        runs1: multiset<Execution>, claimed: set<string>, handlers: map<string, seq<string>>,
                        f: Faults, now: int) {
    PartRound(before, after, runs0, runs1, claimed, {}, handlers, f, now)
  }

  /** A batch part-way: of the claimed events `due`, those `left` are only leased, the others attempted. */
  ghost predicate PartRound(before: map<string, Row>, after: map<string, Row>, runs0: multiset<Execution>,
                            runs1: multiset<Execution>, due: set<string>, left: set<string>,
                            handlers: map<string, seq<string>>, f: Faults, now: int) {
    && left <= due <= DueIds(before, now)
    && after.Keys == before.Keys
    && (forall id :: id in before && id !in due ==> after[id] == before[id])
    && (forall id :: id in left ==> after[id] == Leased(before[id], now))
    && (forall id :: id in due && id !in left ==> Attempted(before[id], after[id], id, handlers, f, now))
    && RunsOf(before, runs0, runs1, due - left, handlers, f)
  }

  /** The executions of the attempts at these events, and no others. */
  ghost predicate RunsOf(before: map<string, Row>, runs0: multiset<Execution>, runs1: multiset<Execution>,
                         claimed: set<string>, handlers: map<string, seq<string>>, f: Faults) {
    forall r: Execution :: runs1[r] == runs0[r] + if Owing(before, claimed, handlers, f, r) then 1 else 0
  }

  /** So each handler pending at the claim ran exactly once in the round, successfully or not. */
  lemma PendingRunOnce(before: map<string, Row>, after: map<string, Row>, runs0: multiset<Execution>,
                       runs1: multiset<Execution>, claimed: set<string>, handlers: map<string, seq<string>>,
                       f: Faults, now: int, id: string, h: string)
    requires Round(before, after, runs0, runs1, claimed, handlers, f, now)
    ensures var yes, no := Execution(id, h, true), Execution(id, h, false);
            runs1[yes] + runs1[no] == runs0[yes] + runs0[no] +
            if id in claimed && h in Registered(handlers, before[id].name) && h !in before[id].completed then 1 else 0
  {
    assert claimed - {} == claimed;
  }

  /** A saved outcome without failures means every registered handler is completed. */
  lemma DispatchedIsComplete(before: Row, after: Row, id: string, handlers: map<string, seq<string>>, f: Faults,
                             now: int)
    requires Attempted(before, after, id, handlers, f, now) && after.status == Dispatched
    requires Due(before, now)
    ensures Names(Registered(handlers, before.name)) <= after.completed && before.completed <= after.completed
  {
  }

  /** An attempted event is no longer due; the others are exactly as due as before. */
  lemma RoundSettles(before: map<string, Row>, after: map<string, Row>, runs0: multiset<Execution>,
                     runs1: multiset<Execution>, claimed: set<string>, handlers: map<string, seq<string>>,
                     f: Faults, now: int)
    requires Round(before, after, runs0, runs1, claimed, handlers, f, now)
    ensures DueIds(after, now) == DueIds(before, now) - claimed
    ensures |DueIds(after, now)| == |DueIds(before, now)| - |claimed|
  {
    forall id
      ensures id in DueIds(after, now) <==> id in DueIds(before, now) - claimed
    {
    }
    assert DueIds(after, now) == DueIds(before, now) - claimed;
  }

  /** Batches add up: the second one claims only events the first left due. */
  lemma RoundsCompose(before: map<string, Row>, mid: map<string, Row>, after: map<string, Row>,
                      runs0: multiset<Execution>, runs1: multiset<Execution>, runs2: multiset<Execution>,
                      first: set<string>, second: set<string>, handlers: map<string, seq<string>>, f: Faults,
                      now: int)
    requires Round(before, mid, runs0, runs1, first, handlers, f, now)
    requires Round(mid, after, runs1, runs2, second, handlers, f, now)
    ensures first !! second && Round(before, after, runs0, runs2, first + second, handlers, f, now)
    ensures DueIds(after, now) == DueIds(before, now) - (first + second)
    ensures |first + second| == |first| + |second|
  {
    RoundSettles(before, mid, runs0, runs1, first, handlers, f, now);
    RunsAddUp(before, mid, runs0, runs1, runs2, first, second, handlers, f);
    RoundSettles(before, after, runs0, runs2, first + second, handlers, f, now);
  }

  lemma RunsAddUp(before: map<string, Row>, mid: map<string, Row>, runs0: multiset<Execution>,
                  runs1: multiset<Execution>, runs2: multiset<Execution>, first: set<string>, second: set<string>,
                  handlers: map<string, seq<string>>, f: Faults)
    requires RunsOf(before, runs0, runs1, first - {}, handlers, f)
    requires RunsOf(mid, runs1, runs2, second - {}, handlers, f)
    requires first !! second && forall id :: id in second ==> id in before && id in mid && mid[id] == before[id]
    ensures RunsOf(before, runs0, runs2, first + second - {}, handlers, f)
  {
    forall r: Execution
      ensures runs2[r] == runs0[r] + if Owing(before, first + second - {}, handlers, f, r) then 1 else 0
    {
      assert Owing(before, first + second - {}, handlers, f, r) <==>
             Owing(before, first - {}, handlers, f, r) || Owing(mid, second - {}, handlers, f, r);
    }
  }

  lemma AllDone(due: set<string>, done: set<string>)
    requires done <= due && due - done == {}
    ensures done == due
  {
    assert forall id :: id in due ==> id !in due - done;
  }

  lemma BatchStarts(before: map<string, Row>, due: set<string>, runs: multiset<Execution>,
                    handlers: map<string, seq<string>>, f: Faults, now: int)
    requires OldestDue(before, due, now)
    ensures PartRound(before, LeaseAll(before, due, now), runs, runs, due, due, handlers, f, now)
  {
    assert due - due == {};
  }

  /** One attempt takes the batch one event further. */
  lemma OneMore(before: map<string, Row>, rows0: map<string, Row>, rows1: map<string, Row>,
                runs: multiset<Execution>, runs0: multiset<Execution>, runs1: multiset<Execution>,
                due: set<string>, left: set<string>, id: string, handlers: map<string, seq<string>>, f: Faults,
                now: int)
    requires PartRound(before, rows0, runs, runs0, due, left, handlers, f, now) && id in left
    requires rows1 == AfterOutcome(rows0, id, Pending(before[id], handlers), f, now)
    requires RanOnce(runs0, runs1, id, Pending(before[id], handlers), f)
    ensures PartRound(before, rows1, runs, runs1, due, left - {id}, handlers, f, now)
  {
    MarkedIsSaved(Leased(before[id], now), id, Pending(before[id], handlers), f, now);
    assert Attempted(before[id], rows1[id], id, handlers, f, now);
    OneMoreRun(before, runs, runs0, runs1, due - left, id, handlers, f);
    assert due - (left - {id}) == due - left + {id};
  }

  lemma OneMoreRun(before: map<string, Row>, runs: multiset<Execution>, runs0: multiset<Execution>,
                   runs1: multiset<Execution>, done: set<string>, id: string, handlers: map<string, seq<string>>,
                   f: Faults)
    requires RunsOf(before, runs, runs0, done, handlers, f) && id in before && id !in done
    requires RanOnce(runs0, runs1, id, Pending(before[id], handlers), f)
    ensures RunsOf(before, runs, runs1, done + {id}, handlers, f)
  {
  }

  /** The table after the outcome of running `todo` is saved, or could not be. */
  ghost function AfterOutcome(rows: map<string, Row>, id: string, todo: set<string>, f: Faults, now: int)
    : map<string, Row>
  {
    if id in f.saves || id !in rows then rows
    else rows[id := Marked(rows[id], f.Good(id, todo), |f.Bad(id, todo)|, now)]
  }

  class EventBus {
    var handlers: map<string, seq<string>>
    const store: PrismaEventStore
    /** Every handler execution so far. */
    ghost var runs: multiset<Execution>

    constructor (store: PrismaEventStore)
      ensures this.store == store && handlers == map[] && runs == multiset{}
      ensures Valid()
    {
      this.store := store;
      handlers := map[];
      runs := multiset{};
    }

    /** Handler names are distinct within an event. */
    ghost predicate Valid()
      reads this
    {
      forall e, i, j :: e in handlers && 0 <= i < j < |handlers[e]| ==> handlers[e][i] != handlers[e][j]
    }

    function HandlersOf(eventName: string): seq<string>
      reads this
    {
      Registered(handlers, eventName)
    }

    /** Registers a handler under its own or its default name; false is the duplicate-name error. */
    method Subscribe(eventName: string, name: string, named: bool) returns (ok: bool)
      requires Valid()
      modifies this`handlers
      ensures Valid()
      ensures var list := old(HandlersOf(eventName));
              var handlerName := if named then name else DefaultName(eventName, |list|);
              ok == (handlerName !in list) &&
              handlers == if ok then old(handlers)[eventName := list + [handlerName]] else old(handlers)
      // Registration by order alone never clashes, and gives handler i the same name in every process
      ensures !named && (forall i :: 0 <= i < |old(HandlersOf(eventName))| ==>
                           old(HandlersOf(eventName))[i] == DefaultName(eventName, i))
              ==> ok && forall i :: 0 <= i < |HandlersOf(eventName)| ==>
                          HandlersOf(eventName)[i] == DefaultName(eventName, i)
    {
      var list := HandlersOf(eventName);
      var handlerName := if named then name else DefaultName(eventName, |list|);
      forall i | 0 <= i < |list|
        ensures DefaultName(eventName, i) != DefaultName(eventName, |list|)
      {
        DefaultNamesDiffer(eventName, i, |list|);
      }
      if handlerName in list {
        return false;
      }
      handlers := handlers[eventName := list + [handlerName]];
      ok := true;
    }

    /** Calls one handler: foreign code. */
    method Run(event: string, handler: string, f: Faults) returns (ok: bool)
      modifies this`runs
      ensures ok <==> (event, handler) !in f.runs
      ensures runs == old(runs) + multiset{Execution(event, handler, ok)}
    {
      ok := (event, handler) !in f.runs;
      runs := runs + multiset{Execution(event, handler, ok)};
    }

    /** Runs all handlers of `todo` once; their results arrive in any order. */
    method Dispatch(event: string, todo: set<string>, f: Faults)
      returns (succeeded: set<string>, failures: set<string>)
      modifies this`runs
      ensures succeeded == f.Good(event, todo) && failures == f.Bad(event, todo)
      ensures RanOnce(old(runs), runs, event, todo, f)
    {
      succeeded, failures := {}, {};
      var left := todo;
      while left != {}
        invariant left <= todo
        invariant succeeded == f.Good(event, todo - left) && failures == f.Bad(event, todo - left)
        invariant RanOnce(old(runs), runs, event, todo - left, f)
        decreases left
      {
        var h :| h in left;
        RunsGrow(old(runs), runs, event, todo - left, f, h, (event, h) !in f.runs);
        assert todo - (left - {h}) == todo - left + {h};
        left := left - {h};
        var ok := Run(event, h, f);
        if ok {
          succeeded := succeeded + {h};
        } else {
          failures := failures + {h};
        }
      }
      assert todo - {} == todo;
    }

    /** Saves an outcome; a failed save is only logged. */
    method SaveOutcome(id: string, succeeded: set<string>, failures: set<string>, now: int, f: Faults)
      modifies store
      ensures store.rows == if id !in f.saves && id in old(store.rows)
                            then old(store.rows)[id := Marked(old(store.rows)[id], succeeded, |failures|, now)]
                            else old(store.rows)
    {
      if id !in f.saves {
        store.MarkResult(id, succeeded, failures, now);
      }
    }

    /**
     * Records the event, runs every handler once, and saves the outcome. An event nobody listens
     * to is not recorded. One whose insert is reported as failed is still delivered, but its
     * outcome is not saved, even if the row was inserted after all: `inserts` says whether the
     * insert takes effect, `acknowledged` whether that is reported.
     */
    method Publish(id: string, eventName: string, now: int, inserts: bool, acknowledged: bool, f: Faults)
      modifies this`runs, store
      ensures RanOnce(old(runs), runs, id, Names(HandlersOf(eventName)), f)
      ensures HandlersOf(eventName) == [] || !inserts ==> store.rows == old(store.rows)
      ensures HandlersOf(eventName) != [] && inserts ==>
                && store.rows.Keys == old(store.rows.Keys) + {id}
                && (forall other :: other in old(store.rows) && other != id ==>
                      store.rows[other] == old(store.rows)[other])
                && var start := if id in old(store.rows) then old(store.rows)[id]
                                else Row(eventName, Status.Pending, 0, {}, now, now);
                   if acknowledged && id !in f.saves
                   then Saved(start, store.rows[id], id, Names(HandlersOf(eventName)), f, now)
                   else store.rows[id] == start
    {
      var todo := Names(HandlersOf(eventName));
      if HandlersOf(eventName) == [] {
        return;
      }
      if inserts {
        store.Record(id, eventName, now);
        MarkedIsSaved(store.rows[id], id, todo, f, now);
      }
      var recorded := inserts && acknowledged;
      var succeeded, failures := Dispatch(id, todo, f);
      if recorded {
        SaveOutcome(id, succeeded, failures, now, f);
      }
    }

    /**
     * One relay batch: claims up to `limit` of the oldest due events and attempts each once,
     * running only the handlers that were not completed at its claim.
     */
    method RedeliverDue(limit: nat, now: int, f: Faults) returns (n: nat, ghost claimed: set<string>)
      modifies this`runs, store
      ensures n == |claimed| == var due := |DueIds(old(store.rows), now)|; if due < limit then due else limit
      ensures OldestDue(old(store.rows), claimed, now)
      ensures Round(old(store.rows), store.rows, old(runs), runs, claimed, handlers, f, now)
    {
      ghost var before := store.rows;
      var due := store.ClaimDue(limit, now);
      var snapshot := store.rows;
      var left := due;
      BatchStarts(before, due, runs, handlers, f, now);
      while left != {}
        invariant PartRound(before, store.rows, old(runs), runs, due, left, handlers, f, now)
        decreases left
      {
        var id :| id in left;
        ghost var rows0, runs0 := store.rows, runs;
        Attempt(id, snapshot[id].name, snapshot[id].completed, now, f);
        OneMore(before, rows0, store.rows, old(runs), runs0, runs, due, left, id, handlers, f, now);
        left := left - {id};
      }
      n, claimed := |due|, due;
    }

    /** One event of a batch: dispatch to the handlers not completed at the claim, save the outcome. */
    method Attempt(id: string, eventName: string, completedHandlers: set<string>, now: int, f: Faults)
      modifies this`runs, store
      ensures var pending := Names(HandlersOf(eventName)) - completedHandlers;
              && store.rows == AfterOutcome(old(store.rows), id, pending, f, now)
              && RanOnce(old(runs), runs, id, pending, f)
    {
      var pending := Names(HandlersOf(eventName)) - completedHandlers;
      var succeeded, failures: set<string> := {}, {};
      if pending != {} {
        succeeded, failures := Dispatch(id, pending, f);
      }
      assert pending == {} ==> f.Good(id, pending) == {} == f.Bad(id, pending);
      SaveOutcome(id, succeeded, failures, now, f);
    }

    /**
     * The relay job: batches until one comes back short. With the clock standing still it ends,
     * attempts every event due at the start exactly once, and returns how many there were.
     */
    method Drain(now: int, f: Faults) returns (total: nat)
      modifies this`runs, store
      ensures total == |DueIds(old(store.rows), now)|
      ensures Round(old(store.rows), store.rows, old(runs), runs, DueIds(old(store.rows), now), handlers, f, now)
      ensures DueIds(store.rows, now) == {}
    {
      total := 0;
      ghost var before := store.rows;
      var batch: nat;
      ghost var done, claimed: set<string>;
      batch, done := RedeliverDue(BATCH_SIZE, now, f);
      RoundSettles(before, store.rows, old(runs), runs, done, handlers, f, now);
      while batch > 0
        invariant Round(before, store.rows, old(runs), runs, done, handlers, f, now)
        invariant total + batch == |done|
        invariant batch < BATCH_SIZE ==> DueIds(store.rows, now) == {}
        decreases |DueIds(store.rows, now)|, batch
      {
        total := total + batch;
        if batch < BATCH_SIZE {
          break;
        }
        ghost var mid, sofar := store.rows, runs;
        batch, claimed := RedeliverDue(BATCH_SIZE, now, f);
        RoundSettles(mid, store.rows, sofar, runs, claimed, handlers, f, now);
        RoundsCompose(before, mid, store.rows, old(runs), sofar, runs, done, claimed, handlers, f, now);
        done := done + claimed;
      }
      RoundSettles(before, store.rows, old(runs), runs, done, handlers, f, now);
      AllDone(DueIds(before, now), done);
    }
  }
}
