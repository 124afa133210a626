/** Counting the transactions of a printed GTID set: the loop of getLocalTrxCount
    (internal/neohactl/mysql.go) and GTIDDiff (internal/database/mysql/mysqlbase.go).  The text
    is what GTID_SUBTRACT returns, one line a UUID, every line but the last ended by a comma. */
module TrxCount {
  import opened Text
  import opened Intervals
  import opened GtidSet

  datatype UuidSet = UuidSet(uuid: string, intervals: seq<Interval>)

  /** Distinct UUIDs without separators, each with intervals in normal form. */
  ghost predicate Printable(sets: seq<UuidSet>) {
    && (forall x | x in sets ::
          && x.uuid != "" && (forall c | c in x.uuid :: c != ':' && c != ',' && !IsSpace(c))
          && x.intervals != [] && NormalForm(x.intervals))
    && (forall i, j | 0 <= i < j < |sets| :: sets[i].uuid != sets[j].uuid)
  }

  function Printed(sets: seq<UuidSet>): string {
    if sets == [] then ""
    else if |sets| == 1 then UuidText(sets[0].uuid, sets[0].intervals)
    else UuidText(sets[0].uuid, sets[0].intervals) + ",\n" + Printed(sets[1..])
  }

  // ---------------------------------------------------------------- the set and its size

  function Range(lo: nat, hi: nat): (r: set<nat>)
    ensures forall n :: n in r <==> lo <= n <= hi
    decreases hi + 1 - lo
  {
    if lo > hi then {} else {lo} + Range(lo + 1, hi)
  }

  function Numbers(s: seq<Interval>): set<nat> {
    if s == [] then {} else Range(s[0].lo, s[0].hi) + Numbers(s[1..])
  }

  function Pairs(u: string, s: set<nat>): set<(string, nat)> {
    set n | n in s :: (u, n)
  }

  /** The transactions of the set, as pairs of a server and a number. */
  function Transactions(sets: seq<UuidSet>): set<(string, nat)> {
    if sets == [] then {} else Pairs(sets[0].uuid, Numbers(sets[0].intervals)) + Transactions(sets[1..])
  }

  function Width(s: seq<Interval>): int {
    if s == [] then 0 else s[0].hi - s[0].lo + 1 + Width(s[1..])
  }

  lemma {:induction false} RangeSize(lo: nat, hi: nat)
    requires lo <= hi + 1
    ensures |Range(lo, hi)| == hi - lo + 1
    decreases hi + 1 - lo
  {
    if lo <= hi {
      RangeSize(lo + 1, hi);
    }
  }

  lemma {:induction false} NumbersAre(s: seq<Interval>, n: nat)
    ensures n in Numbers(s) <==> Covers(s, n)
  {
    if s == [] {
    } else {
      NumbersAre(s[1..], n);
      if Covers(s, n) && !(s[0].lo <= n <= s[0].hi) {
        var i :| 0 <= i < |s| && s[i].lo <= n <= s[i].hi;
        assert s[1..][i - 1] == s[i];
      }
      if Covers(s[1..], n) {
        var i :| 0 <= i < |s[1..]| && s[1..][i].lo <= n <= s[1..][i].hi;
        assert s[i + 1].lo <= n <= s[i + 1].hi;
      }
    }
  }

  lemma {:induction false} NumbersSize(s: seq<Interval>)
    requires NormalForm(s)
    ensures |Numbers(s)| == Width(s)
  {
    if s == [] {
    } else {
      NumbersSize(s[1..]);
      RangeSize(s[0].lo, s[0].hi);
      forall n | n in Numbers(s[1..]) ensures n > s[0].hi {
        NumbersAre(s[1..], n);
        TailCovers(s, n);
      }
      assert Range(s[0].lo, s[0].hi) !! Numbers(s[1..]);
    }
  }

  lemma {:induction false} PairsSize(u: string, s: set<nat>)
    ensures |Pairs(u, s)| == |s|
  {
    if s == {} {
      assert Pairs(u, s) == {};
    } else {
      var n :| n in s;
      PairsSize(u, s - {n});
      assert Pairs(u, s) == Pairs(u, s - {n}) + {(u, n)};
    }
  }

  lemma {:induction false} TransactionsOf(sets: seq<UuidSet>, t: (string, nat))
    ensures t in Transactions(sets) <==>
              exists i :: 0 <= i < |sets| && sets[i].uuid == t.0 && Covers(sets[i].intervals, t.1)
  {
    if sets == [] {
    } else {
      TransactionsOf(sets[1..], t);
      NumbersAre(sets[0].intervals, t.1);
      if i :| 0 <= i < |sets[1..]| && sets[1..][i].uuid == t.0 && Covers(sets[1..][i].intervals, t.1) {
        assert sets[i + 1] == sets[1..][i];
      }
      if i :| 1 <= i < |sets| && sets[i].uuid == t.0 && Covers(sets[i].intervals, t.1) {
        assert sets[1..][i - 1] == sets[i];
      }
    }
  }

  lemma {:induction false} TransactionsSize(sets: seq<UuidSet>)
    requires Printable(sets)
    ensures |Transactions(sets)| == if sets == [] then 0 else Width(sets[0].intervals) + |Transactions(sets[1..])|
  {
    if sets == [] {
    } else {
      assert sets[0] in sets;
      NumbersSize(sets[0].intervals);
      PairsSize(sets[0].uuid, Numbers(sets[0].intervals));
      forall t | t in Transactions(sets[1..]) ensures t.0 != sets[0].uuid {
        TransactionsOf(sets[1..], t);
      }
      assert Pairs(sets[0].uuid, Numbers(sets[0].intervals)) !! Transactions(sets[1..]);
    }
  }

  // ---------------------------------------------------------------- getLocalTrxCount

  /** strings.TrimSuffix(s, ","). */
  function TrimComma(s: string): string {
    if s != "" && s[|s| - 1] == ',' then s[..|s| - 1] else s
  }

  function DiffCount(diff: string): int {
    var values := Split(diff, '-');
    if |values| == 1 then 1 else Atoi(values[1]).value - Atoi(values[0]).value + 1
  }

  function DiffsCount(diffs: seq<string>): int {
    if diffs == [] then 0 else DiffsCount(diffs[..|diffs| - 1]) + DiffCount(diffs[|diffs| - 1])
  }

  function LineCount(line: string): int {
    DiffsCount(Split(TrimComma(TrimSpace(line)), ':')[1..])
  }

  function LinesCount(lines: seq<string>): int {
    if lines == [] then 0 else LinesCount(lines[..|lines| - 1]) + LineCount(lines[|lines| - 1])
  }

  method LocalTrxCount(subtract: string) returns (count: int)
    ensures count == LinesCount(Split(subtract, '\n'))
  {
    count := 0;
    var gtidSet := Split(subtract, '\n');
    for i := 0 to |gtidSet|
      invariant count == LinesCount(gtidSet[..i])
    {
      assert gtidSet[..i + 1][..i] == gtidSet[..i];
      var gtid := TrimComma(TrimSpace(gtidSet[i]));
      var diffs := Split(gtid, ':')[1..];
      for j := 0 to |diffs|
        invariant count == LinesCount(gtidSet[..i]) + DiffsCount(diffs[..j])
      {
        assert diffs[..j + 1][..j] == diffs[..j];
        var values := Split(diffs[j], '-');
        if |values| == 1 {
          count := count + 1;
        } else {
          count := count + Atoi(values[1]).value - Atoi(values[0]).value + 1;
        }
      }
      assert diffs[..|diffs|] == diffs;
    }
    assert gtidSet[..|gtidSet|] == gtidSet;
  }

  lemma DiffCountText(v: Interval)
    requires v.lo <= v.hi
    ensures DiffCount(IntervalText(v)) == v.hi - v.lo + 1
  {
    hide Itoa, Atoi, Split;
    ReadItoa(v.lo);
    ReadItoa(v.hi);
    AtoiItoa(v.lo);
    AtoiItoa(v.hi);
    SplitNothing(Itoa(v.lo), '-');
    SplitNothing(Itoa(v.hi), '-');
    SplitFirst(Itoa(v.lo), '-', Itoa(v.hi));
  }

  lemma {:induction false} DiffsFirst(diffs: seq<string>)
    requires diffs != []
    ensures DiffsCount(diffs) == DiffCount(diffs[0]) + DiffsCount(diffs[1..])
  {
    if |diffs| > 1 {
      var k := |diffs| - 1;
      DiffsFirst(diffs[..k]);
      assert diffs[..k][1..] == diffs[1..][..k - 1];
    }
  }

  lemma {:induction false} DiffsCountTexts(s: seq<Interval>)
    requires Forward(s)
    ensures DiffsCount(IntervalTexts(s)) == Width(s)
  {
    if s == [] {
    } else {
      DiffsFirst(IntervalTexts(s));
      DiffCountText(s[0]);
      assert IntervalTexts(s)[1..] == IntervalTexts(s[1..]);
      DiffsCountTexts(s[1..]);
    }
  }

  lemma PieceItems(x: UuidSet)
    requires Printable([x])
    ensures Split(UuidText(x.uuid, x.intervals), ':')[1..] == IntervalTexts(x.intervals)
  {
    hide NormalForm;
    assert x == [x][0] && x in [x];
    UuidOfText(x.uuid, x.intervals);
    ReadTexts(x.intervals);
    SplitJoin(IntervalTexts(x.intervals), ':');
  }

  /** Every piece of a printed set is free of white space and commas and ends in a digit. */
  lemma PieceShape(x: UuidSet)
    requires Printable([x])
    ensures var t := UuidText(x.uuid, x.intervals);
            t != "" && IsDigit(t[|t| - 1]) && forall c | c in t :: !IsSpace(c) && c != ','
  {
    hide NormalForm, Join;
    assert x == [x][0] && x in [x];
    JoinOfTexts(x.intervals);
    var w := Join(IntervalTexts(x.intervals), ':');
    var t := UuidText(x.uuid, x.intervals);
    assert t == x.uuid + [':'] + w;
    assert t[|t| - 1] == w[|w| - 1];
    forall c | c in t ensures !IsSpace(c) && c != ',' {
      assert c in x.uuid || c == ':' || c in w;
    }
  }

  lemma IntervalTextShape(v: Interval)
    ensures var t := IntervalText(v); t != "" && IsDigit(t[|t| - 1]) && forall c | c in t :: IsDigit(c) || c == '-'
  {
    hide Itoa;
  }

  lemma {:induction false} JoinOfTexts(s: seq<Interval>)
    requires s != []
    ensures var t := Join(IntervalTexts(s), ':');
            t != "" && IsDigit(t[|t| - 1]) && forall c | c in t :: IsDigit(c) || c == '-' || c == ':'
  {
    IntervalTextShape(s[0]);
    if |s| > 1 {
      JoinOfTexts(s[1..]);
      assert IntervalTexts(s)[1..] == IntervalTexts(s[1..]);
    }
  }

  /** Neither white space nor, but for the one that is appended, a comma is trimmed. */
  lemma Trimmed(t: string, comma: string)
    requires t != "" && (forall c | c in t :: !IsSpace(c) && c != ',') && (comma == "" || comma == ",")
    ensures TrimComma(TrimSpace(t + comma)) == t
  {
    var s := t + comma;
    assert t[0] in t && t[|t| - 1] in t;
    assert s[0] == t[0] && !IsSpace(s[|s| - 1]);
    assert TrimSpace(s) == s;
  }

  lemma LineCountPiece(x: UuidSet, comma: string)
    requires Printable([x]) && (comma == "" || comma == ",")
    ensures LineCount(UuidText(x.uuid, x.intervals) + comma) == Width(x.intervals)
  {
    hide UuidText, NormalForm, TrimSpace, TrimComma, Split;
    PieceShape(x);
    PieceItems(x);
    Trimmed(UuidText(x.uuid, x.intervals), comma);
    assert Forward(x.intervals) by { PrintableForward(x); }
    DiffsCountTexts(x.intervals);
  }

  ghost predicate Forward(s: seq<Interval>) {
    forall v | v in s :: v.lo <= v.hi
  }

  lemma PrintableForward(x: UuidSet)
    requires Printable([x])
    ensures Forward(x.intervals)
  {
    assert x == [x][0] && x in [x];
  }

  lemma {:induction false} LinesFirst(lines: seq<string>)
    requires lines != []
    ensures LinesCount(lines) == LineCount(lines[0]) + LinesCount(lines[1..])
  {
    if |lines| > 1 {
      var k := |lines| - 1;
      LinesFirst(lines[..k]);
      assert lines[..k][1..] == lines[1..][..k - 1];
    }
  }

  lemma CountFirstLine(x: UuidSet, rest: string)
    requires Printable([x])
    ensures var t := UuidText(x.uuid, x.intervals);
            && LinesCount(Split(t, '\n')) == Width(x.intervals)
            && LinesCount(Split(t + ",\n" + rest, '\n')) == Width(x.intervals) + LinesCount(Split(rest, '\n'))
  {
    PieceShape(x);
    LineCountPiece(x, "");
    LineCountPiece(x, ",");
    assert IsSpace('\n');
    CountLine(UuidText(x.uuid, x.intervals), rest);
  }

  lemma CountLine(t: string, rest: string)
    requires '\n' !in t
    ensures LinesCount(Split(t, '\n')) == LineCount(t + "")
    ensures LinesCount(Split(t + ",\n" + rest, '\n')) == LineCount(t + ",") + LinesCount(Split(rest, '\n'))
  {
    hide Split, LineCount;
    SplitNothing(t, '\n');
    assert t + "" == t;
    LinesFirst([t]);
    SplitFirst(t + ",", '\n', rest);
    assert t + ",\n" + rest == t + "," + ['\n'] + rest;
    LinesFirst([t + ","] + Split(rest, '\n'));
  }

  /** The counting loop returns the number of transactions in the set. */
  lemma {:induction false} CountIsCardinality(sets: seq<UuidSet>)
    requires Printable(sets)
    ensures LinesCount(Split(Printed(sets), '\n')) == |Transactions(sets)|
  {
    if sets == [] {
      assert Split("", '\n') == [""] && Split("", ':') == [""];
    } else {
      assert Printable([sets[0]]) by { assert sets[0] in sets; }
      TransactionsSize(sets);
      if |sets| > 1 {
        CountIsCardinality(sets[1..]);
      }
      CountFirstLine(sets[0], Printed(sets[1..]));
    }
  }

  // ---------------------------------------------------------------- GTIDDiff

  datatype Diff = Count(text: string) | AtoiError

  datatype MaybeInt = Some(value: int) | None

  function DiffParse(item: string): MaybeInt {
    var v := Split(item, '-');
    if !Atoi(v[0]).ok then None
    else if |v| == 1 then Some(1)
    else if !Atoi(v[1]).ok then None
    else Some(Atoi(v[1]).value - Atoi(v[0]).value + 1)
  }

  function DiffSum(items: seq<string>): MaybeInt {
    if items == [] then Some(0)
    else
      var before := DiffSum(items[..|items| - 1]);
      var last := DiffParse(items[|items| - 1]);
      if before.None? || last.None? then None else Some(before.value + last.value)
  }

  method GTIDDiff(res: string) returns (diff: Diff)
    ensures diff == if res == "" then Count("0")
                    else match DiffSum(Split(res, ':')[1..])
                         case Some(n) => Count(IntText(n))
                         case None => AtoiError
  {
    hide Split, Atoi, IntText;
    if res == "" {
      return Count("0");
    }
    var n: int := 0;
    var a := Split(res, ':')[1..];
    for i := 0 to |a|
      invariant DiffSum(a[..i]) == Some(n)
    {
      assert a[..i + 1][..i] == a[..i];
      var v := Split(a[i], '-');
      var b := Atoi(v[0]);
      if !b.ok {
        FailsLater(a, i);
        return AtoiError;
      }
      if |v| == 1 {
        n := n + 1;
      } else {
        var e := Atoi(v[1]);
        if !e.ok {
          FailsLater(a, i);
          return AtoiError;
        }
        n := n + e.value - b.value + 1;
      }
    }
    assert a[..|a|] == a;
    return Count(IntText(n));
  }

  lemma {:induction false} FailsLater(items: seq<string>, i: nat)
    requires i < |items| && DiffParse(items[i]).None?
    ensures DiffSum(items).None?
  {
    if i < |items| - 1 {
      FailsLater(items[..|items| - 1], i);
    }
  }

  lemma DiffParseText(v: Interval)
    requires v.lo <= v.hi
    ensures DiffParse(IntervalText(v)) == Some(v.hi - v.lo + 1)
  {
    hide Itoa, Atoi, Split;
    ReadItoa(v.lo);
    ReadItoa(v.hi);
    AtoiItoa(v.lo);
    AtoiItoa(v.hi);
    SplitNothing(Itoa(v.lo), '-');
    SplitNothing(Itoa(v.hi), '-');
    SplitFirst(Itoa(v.lo), '-', Itoa(v.hi));
  }

  lemma {:induction false} DiffSumTexts(s: seq<Interval>)
    requires Forward(s)
    ensures DiffSum(IntervalTexts(s)) == Some(DiffsCount(IntervalTexts(s)))
  {
    hide DiffParse, DiffCount, IntervalText;
    if s == [] {
    } else {
      var k := |s| - 1;
      DiffSumTexts(s[..k]);
      assert IntervalTexts(s)[..k] == IntervalTexts(s[..k]);
      DiffParseText(s[k]);
      DiffCountText(s[k]);
    }
  }

  /** Cutting a concatenation glues the last part of the one to the first of the other. */
  function Glue(a: seq<string>, b: seq<string>): seq<string>
    requires a != [] && b != []
  {
    a[..|a| - 1] + [a[|a| - 1] + b[0]] + b[1..]
  }

  lemma GlueFirst(a: seq<string>, b: seq<string>, x: string)
    requires a != [] && b != []
    ensures Glue([x] + a, b) == [x] + Glue(a, b)
    ensures Glue([x + a[0]] + a[1..], b) == [x + Glue(a, b)[0]] + Glue(a, b)[1..]
  {
    assert ([x] + a)[..|a|] == [x] + a[..|a| - 1];
    if |a| == 1 {
      assert x + a[0] + b[0] == x + (a[0] + b[0]);
    }
  }

  lemma {:induction false} SplitConcat(p: string, q: string, c: char)
    ensures Split(p + q, c) == Glue(Split(p, c), Split(q, c))
  {
    if p == "" {
      assert p + q == q;
      assert Split("", c) == [""] && "" + Split(q, c)[0] == Split(q, c)[0];
    } else {
      SplitConcat(p[1..], q, c);
      assert (p + q)[1..] == p[1..] + q && (p + q)[0] == p[0];
      GlueFirst(Split(p[1..], c), Split(q, c), if p[0] == c then "" else [p[0]]);
    }
  }

  lemma NotANumber(s: string, w: string)
    requires IsDigits(s)
    ensures !Atoi(s + "," + w).ok
  {
    var t := s + "," + w;
    assert IsDigit(t[0]) && t[|s|] == ',';
  }

  lemma DiffParseFails(v: Interval, w: string)
    ensures DiffParse(IntervalText(v) + "," + w).None?
  {
    hide Itoa, Atoi;
    ReadItoa(v.lo);
    ReadItoa(v.hi);
    SplitNothing(Itoa(v.lo), '-');
    SplitNothing(Itoa(v.hi), '-');
    SplitFirst(Itoa(v.lo), '-', Itoa(v.hi));
    var t, q := IntervalText(v), "," + w;
    assert t + "," + w == t + q;
    SplitConcat(t, q, '-');
    var x := Split(q, '-')[0];
    assert x == "," + x[1..];
    NotANumber(Itoa(v.lo), x[1..]);
    NotANumber(Itoa(v.hi), x[1..]);
    assert Itoa(v.lo) + x == Itoa(v.lo) + "," + x[1..];
    assert Itoa(v.hi) + x == Itoa(v.hi) + "," + x[1..];
  }

  lemma SplitAfterComma(rest: string) returns (w: string)
    ensures Split("," + rest, ':')[0] == "," + w
  {
    w := Split(rest, ':')[0];
    assert ("," + rest)[1..] == rest;
  }

  lemma GlueItem(items: seq<string>, u: string, b: seq<string>)
    requires items != [] && b != []
    ensures var k := |items| - 1;
            |Glue([u] + items, b)| > k + 1 && Glue([u] + items, b)[1..][k] == items[k] + b[0]
  {
  }

  /** A text that begins with a comma spoils the last interval of the piece before it. */
  lemma SpoiledPieceFails(x: UuidSet, rest: string)
    requires Printable([x])
    ensures DiffSum(Split(UuidText(x.uuid, x.intervals) + ("," + rest), ':')[1..]).None?
  {
    hide Split, UuidText, IntervalText, NormalForm, DiffSum, DiffParse, Glue;
    assert x == [x][0] && x in [x];
    PieceItems(x);
    var t, q, k := UuidText(x.uuid, x.intervals), "," + rest, |x.intervals| - 1;
    SplitConcat(t, q, ':');
    var w := SplitAfterComma(rest);
    assert Split(t, ':') == [Split(t, ':')[0]] + IntervalTexts(x.intervals);
    GlueItem(IntervalTexts(x.intervals), Split(t, ':')[0], Split(q, ':'));
    var item := IntervalText(x.intervals[k]);
    assert item + ("," + w) == item + "," + w;
    DiffParseFails(x.intervals[k], w);
    FailsLater(Split(t + q, ':')[1..], k);
  }

  lemma CommaNewline(t: string, rest: string)
    ensures t + ",\n" + rest == t + ("," + ("\n" + rest))
  {
    assert ",\n" == "," + "\n";
  }

  lemma PrintedFirst(sets: seq<UuidSet>)
    requires |sets| >= 2
    ensures Printed(sets) == UuidText(sets[0].uuid, sets[0].intervals) + ("," + ("\n" + Printed(sets[1..])))
  {
    hide UuidText;
    CommaNewline(UuidText(sets[0].uuid, sets[0].intervals), Printed(sets[1..]));
  }

  lemma PrintableFirst(sets: seq<UuidSet>)
    requires Printable(sets) && sets != []
    ensures Printable([sets[0]])
  {
    hide NormalForm;
    assert sets[0] in sets;
  }

  lemma SeveralUuidsFail(sets: seq<UuidSet>)
    requires Printable(sets) && |sets| >= 2
    ensures DiffSum(Split(Printed(sets), ':')[1..]).None?
  {
    hide *;
    PrintableFirst(sets);
    PrintedFirst(sets);
    SpoiledPieceFails(sets[0], "\n" + Printed(sets[1..]));
  }

  lemma OneUuidSum(x: UuidSet)
    requires Printable([x])
    ensures DiffSum(Split(Printed([x]), ':')[1..]) == Some(|Transactions([x])|)
  {
    assert x == [x][0] && x in [x];
    PieceItems(x);
    TransactionsSize([x]);
    DiffSumTexts(x.intervals);
    DiffsCountTexts(x.intervals);
  }

  /** GTIDDiff agrees with the count on the transactions of at most one server, giving "0" for
      none, and fails on the transactions of several. */
  lemma DiffAgrees(sets: seq<UuidSet>)
    requires Printable(sets)
    ensures |sets| == 0 <==> Printed(sets) == ""
    ensures |sets| == 1 ==> DiffSum(Split(Printed(sets), ':')[1..]) == Some(|Transactions(sets)|)
    ensures |sets| >= 2 ==> DiffSum(Split(Printed(sets), ':')[1..]) == None
  {
    hide Split, DiffSum, Transactions, Printable, Join;
    if |sets| == 1 {
      assert sets == [sets[0]];
      OneUuidSum(sets[0]);
    } else if |sets| >= 2 {
      SeveralUuidsFail(sets);
    }
  }
}
