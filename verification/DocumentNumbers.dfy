/**
 * Receipt and invoice numbers (apps/api/src/common/money/document-number.ts) and the prefix a
 * coaching may choose (apps/api/src/modules/settings/settings.preferences.ts). A number is taken in
 * one step and committed or rolled back in another; between them its counter can give no other.
 */
module DocumentNumbers {
  import opened Text

  // ---------- Labels and prefixes ----------

  const DEFAULT_RECEIPT_PREFIX: string := "RCT"

  predicate UpperOrDigit(c: char) {
    'A' <= c <= 'Z' || '0' <= c <= '9'
  }

  /** /^[A-Z0-9]{2,10}$/ */
  predicate PrefixPattern(prefix: string) {
    2 <= |prefix| <= 10 && forall i :: 0 <= i < |prefix| ==> UpperOrDigit(prefix[i])
  }

  datatype Setting = Missing | Configured(text: string)

  /** The receipt prefix a coaching's settings ask for, or the default when it is unusable. */
  function ReceiptPrefix(config: Setting): (prefix: string)
    ensures PrefixPattern(prefix) && '/' !in prefix && 2 <= |prefix| <= 10
    ensures config.Configured? && 2 <= |config.text| <= 10
            && (forall i :: 0 <= i < |config.text| ==> 'A' <= config.text[i] <= 'Z' || '0' <= config.text[i] <= '9') ==>
              prefix == config.text
    ensures prefix == "RCT" || config == Configured(prefix)
  {
    if config.Configured? && PrefixPattern(config.text) then config.text else DEFAULT_RECEIPT_PREFIX
  }

  /** The year whose April opened the financial year that this month belongs to. */
  function FinancialYear(year: nat, month: nat): nat
    requires year > 0
  {
    if month >= 4 then year else year - 1
  }

  /** "2026-27" */
  function YearLabel(startYear: nat): string {
    Decimal(startYear) + "-" + PadStart(Decimal((startYear + 1) % 100), 2)
  }

  function Series(prefix: string, startYear: nat): string {
    prefix + "/" + YearLabel(startYear)
  }

  function Render(prefix: string, startYear: nat, n: nat): string {
    Series(prefix, startYear) + "/" + PadStart(Decimal(n), 5)
  }

  lemma YearLabelUnique(y: nat, z: nat)
    ensures '/' !in YearLabel(y)
    ensures YearLabel(y) == YearLabel(z) ==> y == z
  {
    ReadDecimalInverts(y);
    ReadDecimalInverts(z);
    ReadDecimalInverts((y + 1) % 100);
    PadStartKeepsValue(Decimal((y + 1) % 100), 2);
    if YearLabel(y) == YearLabel(z) {
      var a, b := PadStart(Decimal((y + 1) % 100), 2), PadStart(Decimal((z + 1) % 100), 2);
      SplitUnique(Decimal(y), Decimal(z), a, b, '-');
    }
  }

  /**
   * What can be read off a printed number: the prefix, the year it began in, the last two digits of
   * the next year, and the number in at least five digits.
   */
  lemma RenderReads(prefix: string, y: nat, n: nat) returns (first: string, second: string, number: string)
    ensures Render(prefix, y, n) == prefix + "/" + first + "-" + second + "/" + number
    ensures AllDigits(first) && ReadDecimal(first) == y
    ensures AllDigits(second) && |second| == 2 && ReadDecimal(second) == (y + 1) % 100
    ensures AllDigits(number) && |number| >= 5 && ReadDecimal(number) == n
  {
    var next := (y + 1) % 100;
    first, second, number := Decimal(y), PadStart(Decimal(next), 2), PadStart(Decimal(n), 5);
    ReadDecimalInverts(y);
    ReadDecimalInverts(next);
    ReadDecimalInverts(n);
    PadStartKeepsValue(Decimal(next), 2);
    PadStartKeepsValue(Decimal(n), 5);
    PadStartLength(Decimal(next), 2);
    PadStartLength(Decimal(n), 5);
    assert |Decimal(next)| <= 2;
    assert Render(prefix, y, n) == prefix + "/" + (first + "-" + second) + "/" + number;
    assert prefix + "/" + (first + "-" + second) == prefix + "/" + first + "-" + second;
  }

  /** Two printed numbers are the same text only if prefix, financial year and number are the same. */
  lemma RenderInjective(p: string, y: nat, m: nat, q: string, z: nat, n: nat)
    requires '/' !in p && '/' !in q
    requires Render(p, y, m) == Render(q, z, n)
    ensures p == q && y == z && m == n
  {
    var a, b := PadStart(Decimal(m), 5), PadStart(Decimal(n), 5);
    assert Render(p, y, m) == p + "/" + (YearLabel(y) + "/" + a);
    assert Render(q, z, n) == q + "/" + (YearLabel(z) + "/" + b);
    SplitUnique(p, q, YearLabel(y) + "/" + a, YearLabel(z) + "/" + b, '/');
    YearLabelUnique(y, z);
    YearLabelUnique(z, y);
    SplitUnique(YearLabel(y), YearLabel(z), a, b, '/');
    ReadDecimalInverts(m);
    ReadDecimalInverts(n);
    PadStartKeepsValue(Decimal(m), 5);
    PadStartKeepsValue(Decimal(n), 5);
  }

  // ---------- Issuing under concurrent transactions ----------

  datatype Key = Key(scope: string, series: string)

  datatype Document = Document(scope: string, prefix: string, startYear: nat, n: nat) {
    function CounterKey(): Key {
      Key(scope, Series(prefix, startYear))
    }
    function Number(): string {
      Render(prefix, startYear, n)
    }
  }

  /** Documents share a counter exactly when scope, prefix and financial year are the same. */
  lemma CountersAreApart(d: Document, e: Document)
    requires '/' !in d.prefix && '/' !in e.prefix
    ensures d.CounterKey() == e.CounterKey()
        <==> d.scope == e.scope && d.prefix == e.prefix && d.startYear == e.startYear
  {
    if d.CounterKey() == e.CounterKey() {
      SplitUnique(d.prefix, e.prefix, YearLabel(d.startYear), YearLabel(e.startYear), '/');
      YearLabelUnique(d.startYear, e.startYear);
    }
  }

  /** Committed counters and documents, and the uncommitted document behind each locked counter row. */
  datatype State = State(counters: map<Key, nat>, documents: seq<Document>, locked: map<Key, Document>)

  function LastValue(s: State, k: Key): nat {
    if k in s.counters then s.counters[k] else 0
  }

  datatype Action =
    | Take(scope: string, prefix: string, startYear: nat)
    | Commit(key: Key)
    | Rollback(key: Key)

  /** A transaction that finds the counter row locked waits: it cannot take a number. */
  predicate Enabled(s: State, x: Action) {
    match x
    case Take(scope, prefix, y) => '/' !in prefix && Key(scope, Series(prefix, y)) !in s.locked
    case Commit(k) => k in s.locked
    case Rollback(k) => k in s.locked
  }

  function Apply(s: State, x: Action): State
    requires Enabled(s, x)
  {
    match x
    case Take(scope, prefix, y) =>
      var k := Key(scope, Series(prefix, y));
      s.(locked := s.locked[k := Document(scope, prefix, y, LastValue(s, k) + 1)])
    case Commit(k) =>
      State(s.counters[k := s.locked[k].n], s.documents + [s.locked[k]], s.locked - {k})
    case Rollback(k) =>
      s.(locked := s.locked - {k})
  }

  ghost predicate IsRun(states: seq<State>, actions: seq<Action>) {
    && |states| == |actions| + 1
    && states[0] == State(map[], [], map[])
    && (forall i :: 0 <= i < |actions| ==>
          Enabled(states[i], actions[i]) && states[i + 1] == Apply(states[i], actions[i]))
  }

  /** Some committed document of this counter carries number n. */
  ghost predicate Issued(s: State, k: Key, n: nat) {
    exists i :: 0 <= i < |s.documents| && s.documents[i].CounterKey() == k && s.documents[i].n == n
  }

  /** The committed numbers of every counter are 1, 2, ..., last, in this order. */
  ghost predicate GapFree(s: State) {
    && (forall i :: 0 <= i < |s.documents| ==>
          1 <= s.documents[i].n <= LastValue(s, s.documents[i].CounterKey()))
    && (forall i, j :: 0 <= i < j < |s.documents| && s.documents[i].CounterKey() == s.documents[j].CounterKey() ==>
          s.documents[i].n < s.documents[j].n)
    && (forall k, n :: 1 <= n <= LastValue(s, k) ==> Issued(s, k, n))
  }

  ghost predicate Inv(s: State) {
    && GapFree(s)
    && (forall i :: 0 <= i < |s.documents| ==> '/' !in s.documents[i].prefix)
    && (forall k :: k in s.locked ==>
          && s.locked[k].CounterKey() == k && '/' !in s.locked[k].prefix
          && s.locked[k].n == LastValue(s, k) + 1)
  }

  lemma CommitKeeps(s: State, k: Key)
    requires Inv(s) && k in s.locked
    ensures Inv(Apply(s, Commit(k)))
  {
    var t := Apply(s, Commit(k));
    forall c, n: nat | 1 <= n <= LastValue(t, c)
      ensures Issued(t, c, n)
    {
      IssuedAfterCommit(s, k, c, n);
    }
  }

  lemma IssuedAfterCommit(s: State, k: Key, c: Key, n: nat)
    requires Inv(s) && k in s.locked && 1 <= n <= LastValue(Apply(s, Commit(k)), c)
    ensures Issued(Apply(s, Commit(k)), c, n)
  {
    var t := Apply(s, Commit(k));
    if c == k && n == s.locked[k].n {
      assert t.documents[|s.documents|] == s.locked[k];
    } else {
      assert Issued(s, c, n);
      var i :| 0 <= i < |s.documents| && s.documents[i].CounterKey() == c && s.documents[i].n == n;
      assert t.documents[i] == s.documents[i];
    }
  }

  lemma InvKept(s: State, x: Action)
    requires Inv(s) && Enabled(s, x)
    ensures Inv(Apply(s, x))
  {
    if x.Commit? {
      CommitKeeps(s, x.key);
    } else {
      var t := Apply(s, x);
      forall c, n: nat | 1 <= n <= LastValue(t, c)
        ensures Issued(t, c, n)
      {
        assert Issued(s, c, n);
      }
    }
  }

  lemma {:induction false} Reachable(states: seq<State>, actions: seq<Action>, i: nat)
    requires IsRun(states, actions) && i < |states|
    ensures Inv(states[i])
  {
    if i > 0 {
      Reachable(states, actions, i - 1);
      InvKept(states[i - 1], actions[i - 1]);
    }
  }

  /** Under any mix of commits and rollbacks the numbers of each counter are exactly 1..last. */
  lemma NumbersAreGapFree(states: seq<State>, actions: seq<Action>, i: nat)
    requires IsRun(states, actions) && i < |states|
    ensures GapFree(states[i])
  {
    Reachable(states, actions, i);
  }

  /** No two committed documents of one scope ever carry the same text. */
  lemma PrintedNumbersAreUnique(states: seq<State>, actions: seq<Action>, i: nat, a: nat, b: nat)
    requires IsRun(states, actions) && i < |states|
    requires a < b < |states[i].documents| && states[i].documents[a].scope == states[i].documents[b].scope
    ensures states[i].documents[a].Number() != states[i].documents[b].Number()
  {
    Reachable(states, actions, i);
    var d, e := states[i].documents[a], states[i].documents[b];
    if d.Number() == e.Number() {
      RenderInjective(d.prefix, d.startYear, d.n, e.prefix, e.startYear, e.n);
    }
  }

  /** A number taken and committed with nothing in between is the one after the last of its counter. */
  lemma IssuedAlone(counters: map<Key, nat>, documents: seq<Document>, scope: string, prefix: string, startYear: nat)
    requires '/' !in prefix
    ensures var k := Key(scope, Series(prefix, startYear));
            var s := State(counters, documents, map[]);
            var n := (if k in counters then counters[k] else 0) + 1;
            && Enabled(s, Take(scope, prefix, startYear))
            && Enabled(Apply(s, Take(scope, prefix, startYear)), Commit(k))
            && Apply(Apply(s, Take(scope, prefix, startYear)), Commit(k))
               == State(counters[k := n], documents + [Document(scope, prefix, startYear, n)], map[])
  {
    var k := Key(scope, Series(prefix, startYear));
    var taken := Apply(State(counters, documents, map[]), Take(scope, prefix, startYear));
    assert taken.locked - {k} == map[];
  }

  /** `document_sequences` as one transaction sees it. */
  class Sequences {
    var rows: map<Key, nat>

    constructor ()
      ensures rows == map[]
    {
      rows := map[];
    }

    /** INSERT ... ON CONFLICT DO UPDATE ... RETURNING, in one statement. */
    method NextDocumentNumber(scope: string, prefix: string, startYear: nat) returns (number: string)
      modifies this
      ensures var k := Key(scope, Series(prefix, startYear));
              var next := (if k in old(rows) then old(rows)[k] else 0) + 1;
              rows == old(rows)[k := next] && number == Render(prefix, startYear, next)
    {
      var series := Series(prefix, startYear);
      var k := Key(scope, series);
      rows := rows[k := if k in rows then rows[k] + 1 else 1];
      number := series + "/" + PadStart(Decimal(rows[k]), 5);
    }
  }
}
