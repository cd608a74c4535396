/**
 * The words printed on receipts (apps/web/src/lib/money-words.ts) and a reader of such words that
 * recovers the amount. The printer counts in whole paise, to which it first rounds a product that
 * was computed in doubles.
 */
module MoneyWords {
  import opened Text

  const ONES: seq<string> := [
    "", "One", "Two", "Three", "Four", "Five", "Six", "Seven", "Eight", "Nine",
    "Ten", "Eleven", "Twelve", "Thirteen", "Fourteen", "Fifteen", "Sixteen", "Seventeen", "Eighteen", "Nineteen"]
  const TENS: seq<string> :=
    ["", "", "Twenty", "Thirty", "Forty", "Fifty", "Sixty", "Seventy", "Eighty", "Ninety"]

  /** 0-99. */
  function TwoDigits(n: nat): string
    requires n < 100
  {
    if n < 20 then ONES[n]
    else if n % 10 != 0 then TENS[n / 10] + "-" + ONES[n % 10]
    else TENS[n / 10]
  }

  /** `filter(Boolean)` on texts. */
  function NonEmpty(parts: seq<string>): seq<string> {
    if parts == [] then []
    else (if parts[0] == "" then [] else [parts[0]]) + NonEmpty(parts[1..])
  }

  /** 0-999. */
  function ThreeDigits(n: nat): string
    requires n < 1000
  {
    var hundreds, rest := n / 100, n % 100;
    Join(NonEmpty([if hundreds != 0 then ONES[hundreds] + " Hundred" else "",
                   if rest != 0 then TwoDigits(rest) else ""]), " ")
  }

  function NumberInWords(n: nat): string {
    if n == 0 then "Zero"
    else
      var crore, lakh, thousand, rest := n / 10_000_000, n % 10_000_000 / 100_000, n % 100_000 / 1000, n % 1000;
      Join(NonEmpty([
        if crore != 0 then NumberInWords(crore) + " Crore" else "",
        if lakh != 0 then TwoDigits(lakh) + " Lakh" else "",
        if thousand != 0 then TwoDigits(thousand) + " Thousand" else "",
        if rest != 0 then ThreeDigits(rest) else ""]), " ")
  }

  function RupeesInWords(paiseTotal: nat): string {
    var words := "Rupees " + NumberInWords(paiseTotal / 100);
    if paiseTotal % 100 != 0 then words + " and " + TwoDigits(paiseTotal % 100) + " Paise Only"
    else words + " Only"
  }

  // ---------- The reader ----------

  /** The words of a text, separated by single spaces. */
  function Split(s: string): seq<string>
    decreases |s|
  {
    var i := IndexOf(s, ' ');
    if i == |s| then [s] else [s[..i]] + Split(s[i + 1..])
  }

  /** What a number word means to a reader; 0 for a word that is none. */
  function Meaning(w: string): nat {
    if w == "One" then 1 else if w == "Two" then 2 else if w == "Three" then 3 else if w == "Four" then 4
    else if w == "Five" then 5 else if w == "Six" then 6 else if w == "Seven" then 7 else if w == "Eight" then 8
    else if w == "Nine" then 9 else if w == "Ten" then 10 else if w == "Eleven" then 11 else if w == "Twelve" then 12
    else if w == "Thirteen" then 13 else if w == "Fourteen" then 14 else if w == "Fifteen" then 15
    else if w == "Sixteen" then 16 else if w == "Seventeen" then 17 else if w == "Eighteen" then 18
    else if w == "Nineteen" then 19 else if w == "Twenty" then 20 else if w == "Thirty" then 30
    else if w == "Forty" then 40 else if w == "Fifty" then 50 else if w == "Sixty" then 60
    else if w == "Seventy" then 70 else if w == "Eighty" then 80 else if w == "Ninety" then 90
    else 0
  }

  /** One word, or two with a hyphen between them. */
  function ReadTwo(w: string): int {
    var i := IndexOf(w, '-');
    if i < |w| then Meaning(w[..i]) + Meaning(w[i + 1..]) else Meaning(w)
  }

  function UnitValue(w: string): int {
    if w == "Lakh" then 100_000 else if w == "Thousand" then 1000 else if w == "Hundred" then 100 else 1
  }

  /** A number below one crore: words with their units, and possibly a last one without. */
  function ReadSmall(words: seq<string>): int {
    if words == [] then 0
    else if |words| == 1 then ReadTwo(words[0])
    else ReadTwo(words[0]) * UnitValue(words[1]) + ReadSmall(words[2..])
  }

  /** Where the last "Crore" is, or -1. */
  function LastCrore(words: seq<string>): (i: int)
    ensures -1 <= i < |words|
  {
    if words == [] then -1
    else if words[|words| - 1] == "Crore" then |words| - 1
    else LastCrore(words[..|words| - 1])
  }

  /** Everything before the last "Crore" counts crores. */
  function ReadWords(words: seq<string>): int {
    var i := LastCrore(words);
    if words == ["Zero"] then 0
    else if i < 0 then ReadSmall(words)
    else 10_000_000 * ReadWords(words[..i]) + ReadSmall(words[i + 1..])
  }

  function ReadNumber(s: string): int {
    ReadWords(Split(s))
  }

  /** "Rupees ... [and ... Paise] Only", as paise. */
  function ReadRupeeWords(words: seq<string>): int {
    var n := |words|;
    if n < 3 then -1
    else if n >= 6 && words[n - 2] == "Paise" then 100 * ReadWords(words[1..n - 4]) + ReadTwo(words[n - 3])
    else 100 * ReadWords(words[1..n - 1])
  }

  function ReadRupees(s: string): int {
    ReadRupeeWords(Split(s))
  }

  // ---------- The words of a number ----------

  function LastWord(n: nat): seq<string>
    requires n < 100
  {
    if n != 0 then [TwoDigits(n)] else []
  }

  function HundredWords(n: nat): seq<string>
    requires n < 1000
  {
    UnitWords(n / 100, "Hundred") + LastWord(n % 100)
  }

  function SmallWords(n: nat): seq<string>
    requires n < 10_000_000
  {
    UnitWords(n / 100_000, "Lakh") + (UnitWords(n % 100_000 / 1000, "Thousand") + HundredWords(n % 1000))
  }

  function UnitWords(n: nat, unit: string): seq<string>
    requires n < 100
  {
    if n != 0 then [TwoDigits(n), unit] else []
  }

  function Words(n: nat): seq<string> {
    if n == 0 then ["Zero"]
    else (if n / 10_000_000 != 0 then Words(n / 10_000_000) + ["Crore"] else []) + SmallWords(n % 10_000_000)
  }

  /** A word a reader can tell apart: not empty, without a space. */
  ghost predicate Word(w: string) {
    w != "" && ' ' !in w
  }

  ghost predicate AllWords(words: seq<string>) {
    forall i :: 0 <= i < |words| ==> Word(words[i])
  }

  /** Words that are not markers for the reader. */
  ghost predicate PlainWord(w: string) {
    w != "Crore" && w != "Zero" && w != "Paise"
  }

  ghost predicate Plain(words: seq<string>) {
    forall i :: 0 <= i < |words| ==> PlainWord(words[i])
  }

  lemma TablesAreWords()
    ensures forall i :: 1 <= i < 20 ==> Word(ONES[i]) && '-' !in ONES[i] && PlainWord(ONES[i])
    ensures forall i :: 2 <= i < 10 ==> Word(TENS[i]) && '-' !in TENS[i] && PlainWord(TENS[i])
  {
  }

  /** The printer's tables hold the words that mean their places. */
  lemma TablesMean()
    ensures forall i :: 1 <= i < 20 ==> Meaning(ONES[i]) == i
    ensures forall i :: 2 <= i < 10 ==> Meaning(TENS[i]) == 10 * i
  {
  }

  lemma NoHyphen(w: string)
    requires '-' !in w
    ensures IndexOf(w, '-') == |w|
  {
  }

  lemma HyphenAt(tens: string, ones: string)
    requires '-' !in tens
    ensures IndexOf(tens + "-" + ones, '-') == |tens|
  {
    assert (tens + "-" + ones)[|tens|] == '-';
  }

  lemma HyphenIsPlain(w: string)
    requires '-' in w
    ensures PlainWord(w)
  {
  }

  lemma HyphenRead(tens: string, ones: string)
    requires Word(tens) && Word(ones) && '-' !in tens
    ensures ReadTwo(tens + "-" + ones) == Meaning(tens) + Meaning(ones)
    ensures Word(tens + "-" + ones) && PlainWord(tens + "-" + ones)
  {
    var w := tens + "-" + ones;
    HyphenAt(tens, ones);
    assert w[|tens|] == '-';
    HyphenIsPlain(w);
    assert w[..|tens|] == tens && w[|tens| + 1..] == ones;
  }

  lemma TwoReadsBack(n: nat)
    requires 0 < n < 100
    ensures ReadTwo(TwoDigits(n)) == n
    ensures Word(TwoDigits(n)) && PlainWord(TwoDigits(n))
  {
    TablesAreWords();
    TablesMean();
    if n < 20 {
      NoHyphen(ONES[n]);
    } else if n % 10 == 0 {
      NoHyphen(TENS[n / 10]);
    } else {
      HyphenRead(TENS[n / 10], ONES[n % 10]);
    }
  }

  // ---------- The printed text is its words, joined by spaces ----------

  lemma {:induction false} JoinAppend(a: seq<string>, b: seq<string>, sep: string)
    requires |a| > 0 && |b| > 0
    ensures Join(a + b, sep) == Join(a, sep) + sep + Join(b, sep)
  {
    if |a| == 1 {
      assert (a + b)[1..] == b;
    } else {
      assert (a + b)[1..] == a[1..] + b;
      JoinAppend(a[1..], b, sep);
    }
  }

  lemma {:induction false} JoinNotEmpty(words: seq<string>)
    requires AllWords(words)
    ensures Join(words, " ") == "" <==> words == []
  {
  }

  function Flatten(groups: seq<seq<string>>): seq<string> {
    if groups == [] then [] else groups[0] + Flatten(groups[1..])
  }

  /** Joining the non-empty parts of a number gives the join of all their words. */
  lemma {:induction false} JoinParts(parts: seq<string>, groups: seq<seq<string>>)
    requires |parts| == |groups|
    requires forall i :: 0 <= i < |parts| ==> AllWords(groups[i]) && parts[i] == Join(groups[i], " ")
    ensures Join(NonEmpty(parts), " ") == Join(Flatten(groups), " ")
    ensures NonEmpty(parts) == [] <==> Flatten(groups) == []
  {
    if parts != [] {
      JoinParts(parts[1..], groups[1..]);
      JoinNotEmpty(groups[0]);
      var rest, words := NonEmpty(parts[1..]), Flatten(groups[1..]);
      if parts[0] == "" {
        assert groups[0] + words == words;
        assert NonEmpty(parts) == rest;
      } else if rest == [] {
        assert [parts[0]] + rest == [parts[0]];
        assert groups[0] + words == groups[0];
      } else {
        JoinAppend([parts[0]], rest, " ");
        JoinAppend(groups[0], words, " ");
      }
    }
  }

  lemma TwoParts(s: string, a: seq<string>, t: string, b: seq<string>)
    requires AllWords(a) && s == Join(a, " ") && AllWords(b) && t == Join(b, " ")
    ensures Join(NonEmpty([s, t]), " ") == Join(a + b, " ")
  {
    JoinParts([s, t], [a, b]);
    FlattenTwo(a, b);
  }

  lemma FlattenTwo(a: seq<string>, b: seq<string>)
    ensures Flatten([a, b]) == a + b
  {
    assert [a, b][1..] == [b];
    assert Flatten([b]) == b + [];
  }

  lemma FourParts(s: string, a: seq<string>, t: string, b: seq<string>, u: string, c: seq<string>, v: string,
      d: seq<string>)
    requires AllWords(a) && s == Join(a, " ") && AllWords(b) && t == Join(b, " ")
    requires AllWords(c) && u == Join(c, " ") && AllWords(d) && v == Join(d, " ")
    ensures Join(NonEmpty([s, t, u, v]), " ") == Join(a + (b + (c + d)), " ")
  {
    var groups := [a, b, c, d];
    JoinParts([s, t, u, v], groups);
    assert groups[1..] == [b, c, d];
    assert [b, c, d][1..] == [c, d];
    FlattenTwo(c, d);
  }

  lemma JoinTwo(v: string, w: string)
    ensures Join([v, w], " ") == v + (" " + w)
  {
    assert [v, w][1..] == [w];
  }

  lemma UnitPrinted(n: nat, unit: string, suffix: string)
    requires n < 100 && Word(unit) && suffix == " " + unit
    ensures Join(UnitWords(n, unit), " ") == if n != 0 then TwoDigits(n) + suffix else ""
    ensures AllWords(UnitWords(n, unit))
  {
    if n != 0 {
      TwoReadsBack(n);
      JoinTwo(TwoDigits(n), unit);
    }
  }

  lemma LastPrinted(n: nat)
    requires n < 100
    ensures Join(LastWord(n), " ") == if n != 0 then TwoDigits(n) else ""
    ensures AllWords(LastWord(n))
  {
    if n != 0 {
      TwoReadsBack(n);
    }
  }

  lemma ThreePrinted(n: nat)
    requires n < 1000
    ensures ThreeDigits(n) == Join(HundredWords(n), " ")
    ensures AllWords(HundredWords(n))
  {
    UnitPrinted(n / 100, "Hundred", " Hundred");
    LastPrinted(n % 100);
    TwoParts(if n / 100 != 0 then ONES[n / 100] + " Hundred" else "", UnitWords(n / 100, "Hundred"),
             if n % 100 != 0 then TwoDigits(n % 100) else "", LastWord(n % 100));
  }

  /** The words of the crores, and their printed part. */
  lemma CrorePrinted(s: string, words: seq<string>)
    requires AllWords(words) && words != [] && s == Join(words, " ")
    ensures Join(words + ["Crore"], " ") == s + " Crore" && AllWords(words + ["Crore"])
  {
    JoinAppend(words, ["Crore"], " ");
    assert s + " " + "Crore" == s + " Crore";
  }

  lemma SmallOf(n: nat)
    ensures n % 10_000_000 % 100_000 == n % 100_000
    ensures n % 10_000_000 % 1000 == n % 1000
  {
  }

  lemma {:induction false} Printed(n: nat)
    ensures NumberInWords(n) == Join(Words(n), " ")
    ensures AllWords(Words(n)) && Words(n) != []
  {
    if n > 0 {
      var crore, lakh, thousand, rest := n / 10_000_000, n % 10_000_000 / 100_000, n % 100_000 / 1000, n % 1000;
      var top := if crore != 0 then Words(crore) + ["Crore"] else [];
      if crore != 0 {
        Printed(crore);
        CrorePrinted(NumberInWords(crore), Words(crore));
      }
      SmallPrinted(if crore != 0 then NumberInWords(crore) + " Crore" else "", top, lakh, thousand, rest);
      SmallOf(n);
    }
  }

  lemma SmallPrinted(s: string, top: seq<string>, lakh: nat, thousand: nat, rest: nat)
    requires AllWords(top) && s == Join(top, " ") && lakh < 100 && thousand < 100 && rest < 1000
    ensures var small := UnitWords(lakh, "Lakh") + (UnitWords(thousand, "Thousand") + HundredWords(rest));
            Join(NonEmpty([s,
                           if lakh != 0 then TwoDigits(lakh) + " Lakh" else "",
                           if thousand != 0 then TwoDigits(thousand) + " Thousand" else "",
                           if rest != 0 then ThreeDigits(rest) else ""]), " ") == Join(top + small, " ")
            && AllWords(small)
  {
    UnitPrinted(lakh, "Lakh", " Lakh");
    UnitPrinted(thousand, "Thousand", " Thousand");
    ThreePrinted(rest);
    FourParts(s, top,
              if lakh != 0 then TwoDigits(lakh) + " Lakh" else "", UnitWords(lakh, "Lakh"),
              if thousand != 0 then TwoDigits(thousand) + " Thousand" else "", UnitWords(thousand, "Thousand"),
              if rest != 0 then ThreeDigits(rest) else "", HundredWords(rest));
  }

  // ---------- The reader inverts the printer ----------

  lemma {:induction false} SplitJoin(words: seq<string>)
    requires AllWords(words) && words != []
    ensures Split(Join(words, " ")) == words
  {
    var s := Join(words, " ");
    if |words| == 1 {
      assert IndexOf(s, ' ') == |s|;
    } else {
      SplitFirst(words[0], Join(words[1..], " "));
      SplitJoin(words[1..]);
    }
  }

  lemma SplitFirst(w: string, rest: string)
    requires Word(w)
    ensures Split(w + " " + rest) == [w] + Split(rest)
  {
    var s, i := w + " " + rest, |w|;
    assert s[i] == ' ' && s[..i] == w && s[i + 1..] == rest;
    assert IndexOf(s, ' ') == i;
  }

  lemma PlainUnit(n: nat, unit: string)
    requires n < 100 && PlainWord(unit)
    ensures Plain(UnitWords(n, unit))
  {
    if n != 0 {
      TwoReadsBack(n);
    }
  }

  lemma UnitReadsBack(n: nat, unit: string, rest: seq<string>)
    requires n < 100
    ensures ReadSmall(UnitWords(n, unit) + rest) == n * UnitValue(unit) + ReadSmall(rest)
  {
    if n != 0 {
      TwoReadsBack(n);
      PairReads(TwoDigits(n), unit, rest);
    } else {
      assert [] + rest == rest;
    }
  }

  lemma PairReads(w: string, unit: string, rest: seq<string>)
    ensures ReadSmall([w, unit] + rest) == ReadTwo(w) * UnitValue(unit) + ReadSmall(rest)
  {
    assert ([w, unit] + rest)[2..] == rest;
  }

  lemma LastReadsBack(n: nat)
    requires n < 100
    ensures ReadSmall(LastWord(n)) == n && Plain(LastWord(n))
  {
    if n != 0 {
      TwoReadsBack(n);
    }
  }

  lemma HundredReadsBack(n: nat)
    requires n < 1000
    ensures ReadSmall(HundredWords(n)) == n && Plain(HundredWords(n))
  {
    PlainUnit(n / 100, "Hundred");
    LastReadsBack(n % 100);
    UnitReadsBack(n / 100, "Hundred", LastWord(n % 100));
  }

  lemma SmallReadsBack(n: nat)
    requires n < 10_000_000
    ensures ReadSmall(SmallWords(n)) == n && Plain(SmallWords(n))
  {
    var lakh, thousand, low := n / 100_000, n % 100_000 / 1000, n % 1000;
    PlainUnit(lakh, "Lakh");
    PlainUnit(thousand, "Thousand");
    HundredReadsBack(low);
    UnitReadsBack(thousand, "Thousand", HundredWords(low));
    UnitReadsBack(lakh, "Lakh", UnitWords(thousand, "Thousand") + HundredWords(low));
    Positions(n);
  }

  lemma Positions(n: nat)
    requires n < 10_000_000
    ensures n / 100_000 * 100_000 + (n % 100_000 / 1000 * 1000 + n % 1000) == n
  {
  }

  lemma {:induction false} LastCroreFound(a: seq<string>, b: seq<string>)
    requires Plain(b)
    ensures LastCrore(a + ["Crore"] + b) == |a|
  {
    var words := a + ["Crore"] + b;
    if b != [] {
      assert words[..|words| - 1] == a + ["Crore"] + b[..|b| - 1];
      LastCroreFound(a, b[..|b| - 1]);
    }
  }

  lemma {:induction false} NoCrore(words: seq<string>)
    requires Plain(words)
    ensures LastCrore(words) == -1 && words != ["Zero"]
  {
    assert ["Zero"][0] == "Zero";
    if words != [] {
      NoCrore(words[..|words| - 1]);
    }
  }

  lemma CroreReads(top: seq<string>, small: seq<string>)
    requires Plain(small)
    ensures ReadWords(top + ["Crore"] + small) == 10_000_000 * ReadWords(top) + ReadSmall(small)
  {
    var words := top + ["Crore"] + small;
    LastCroreFound(top, small);
    assert words[|top|] == "Crore";
    assert words[..|top|] == top && words[|top| + 1..] == small;
  }

  lemma {:induction false} WordsReadBack(n: nat)
    ensures ReadWords(Words(n)) == n
  {
    if n > 0 {
      var crore, small := n / 10_000_000, SmallWords(n % 10_000_000);
      SmallReadsBack(n % 10_000_000);
      if crore == 0 {
        assert Words(n) == [] + small == small;
        NoCrore(small);
      } else {
        WordsReadBack(crore);
        CroreReads(Words(crore), small);
      }
    }
  }

  /** Every natural number is recovered from its words, nested crores included. */
  lemma NumberReadsBack(n: nat)
    ensures ReadNumber(NumberInWords(n)) == n
  {
    Printed(n);
    SplitJoin(Words(n));
    WordsReadBack(n);
  }

  lemma {:induction false} NoPaise(n: nat)
    ensures "Paise" !in Words(n)
  {
    if n > 0 {
      SmallReadsBack(n % 10_000_000);
      if n / 10_000_000 != 0 {
        NoPaise(n / 10_000_000);
      }
    }
  }

  /** A text between a first word and some last ones splits into all of them. */
  lemma Wrapped(first: string, s: string, words: seq<string>, tail: seq<string>)
    requires Word(first) && AllWords(words) && words != [] && s == Join(words, " ")
    requires AllWords(tail) && tail != []
    ensures Split(first + " " + (s + " " + Join(tail, " "))) == [first] + (words + tail)
  {
    var all := [first] + (words + tail);
    JoinAppend(words, tail, " ");
    JoinAppend([first], words + tail, " ");
    assert Join(all, " ") == first + " " + (s + " " + Join(tail, " "));
    assert AllWords(all) by {
      forall i | 0 <= i < |all|
        ensures Word(all[i])
      {
        assert all[i] == if i == 0 then first else if i <= |words| then words[i - 1] else tail[i - 1 - |words|];
      }
    }
    SplitJoin(all);
  }

  lemma ReadsOnly(words: seq<string>)
    requires words != [] && "Paise" !in words
    ensures ReadRupeeWords(["Rupees"] + (words + ["Only"])) == 100 * ReadWords(words)
  {
    var all := ["Rupees"] + (words + ["Only"]);
    assert all[1..|all| - 1] == words;
    assert all[|all| - 2] == words[|words| - 1];
  }

  lemma ReadsPaise(words: seq<string>, w: string)
    requires words != []
    ensures ReadRupeeWords(["Rupees"] + (words + ["and", w, "Paise", "Only"])) == 100 * ReadWords(words) + ReadTwo(w)
  {
    var all := ["Rupees"] + (words + ["and", w, "Paise", "Only"]);
    assert all[1..|all| - 4] == words;
    assert all[|all| - 2] == "Paise" && all[|all| - 3] == w;
  }

  lemma JoinFour(a: string, b: string, c: string, d: string)
    ensures Join([a, b, c, d], " ") == a + " " + (b + " " + (c + " " + d))
  {
    assert [a, b, c, d][1..] == [b, c, d];
    assert [b, c, d][1..] == [c, d];
    JoinTwo(c, d);
  }

  lemma Spaces(a: string, s: string, b: string, w: string, c: string)
    ensures (a + " ") + s + (" " + b + " ") + w + (" " + c) == a + " " + (s + " " + (b + " " + (w + " " + c)))
    ensures (a + " ") + s + (" " + b) == a + " " + (s + " " + b)
  {
  }

  lemma Literals()
    ensures "Rupees " == "Rupees" + " " && " and " == " " + "and" + " "
    ensures " Paise Only" == " " + ("Paise" + " " + "Only") && " Only" == " " + "Only"
    ensures AllWords(["Only"]) && Word("Rupees") && Word("and") && Word("Paise")
  {
  }

  /** The printed amount splits into its words. */
  lemma RupeesPrinted(s: string, words: seq<string>, w: string)
    requires AllWords(words) && words != [] && s == Join(words, " ") && Word(w)
    ensures Split("Rupees " + s + " Only") == ["Rupees"] + (words + ["Only"])
    ensures Split("Rupees " + s + " and " + w + " Paise Only") == ["Rupees"] + (words + ["and", w, "Paise", "Only"])
  {
    Literals();
    Spaces("Rupees", s, "and", w, "Paise" + " " + "Only");
    Spaces("Rupees", s, "Only", "", "");
    JoinFour("and", w, "Paise", "Only");
    Wrapped("Rupees", s, words, ["Only"]);
    Wrapped("Rupees", s, words, ["and", w, "Paise", "Only"]);
  }

  /** Rupees and paise together are recovered from the receipt text. */
  lemma RupeesReadBack(paiseTotal: nat)
    ensures ReadRupees(RupeesInWords(paiseTotal)) == paiseTotal
  {
    var words, paise := Words(paiseTotal / 100), paiseTotal % 100;
    Printed(paiseTotal / 100);
    WordsReadBack(paiseTotal / 100);
    if paise != 0 {
      TwoReadsBack(paise);
      RupeesPrinted(NumberInWords(paiseTotal / 100), words, TwoDigits(paise));
      ReadsPaise(words, TwoDigits(paise));
    } else {
      NoPaise(paiseTotal / 100);
      Literals();
      RupeesPrinted(NumberInWords(paiseTotal / 100), words, "and");
      ReadsOnly(words);
    }
  }

  /** `rupeesInWords`, from the product of the amount and 100 as it comes out in doubles. */
  function AmountInWords(product: real): string
    requires product >= -0.5
  {
    RupeesInWords((product + 0.5).Floor)
  }

  /** The text of any amount of whole paise reads back as that amount, if the product is less than half a paisa off. */
  lemma AmountReadsBack(paise: nat, product: real)
    requires paise as real - 0.5 <= product < paise as real + 0.5
    ensures ReadRupees(AmountInWords(product)) == paise
  {
    assert (product + 0.5).Floor == paise;
    RupeesReadBack(paise);
  }
}
