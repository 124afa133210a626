/** GTID sets as MySQL reads them: white space around a UUID is ignored, so that the text it
    prints over several lines, and what GTIDSetUnion makes of such text, mean the sets that were
    printed.  On this reading rests the comparison of two members of a group
    (internal/database/mysql/api.go and mysqlbase.go). */
module MysqlSet {
  import opened Text
  import opened Intervals
  import opened GtidSet
  import opened TrxCount

  /** Transaction n of server u belongs to the set; pieces whose UUIDs differ in white space only
      belong to one server. */
  ghost predicate MysqlHas(gtids: string, u: string, n: nat) {
    exists v :: TrimSpace(v) == u && Has(gtids, v, n)
  }

  // ---------------------------------------------------------------- the lines of a printed set

  /** The pieces between the commas; every one but the first begins with a new line. */
  function Lines(sets: seq<UuidSet>, p: string): seq<string> {
    if sets == [] then [] else [p + UuidText(sets[0].uuid, sets[0].intervals)] + Lines(sets[1..], "\n")
  }

  lemma SplitNewline(s: string)
    ensures Split("\n" + s, ',') == ["\n" + Split(s, ',')[0]] + Split(s, ',')[1..]
  {
    assert ("\n" + s)[1..] == s;
  }

  lemma {:induction false} SplitPrinted(sets: seq<UuidSet>)
    requires Printable(sets) && sets != []
    ensures Split(Printed(sets), ',') == Lines(sets, "")
  {
    hide UuidText, Split;
    var t := UuidText(sets[0].uuid, sets[0].intervals);
    PrintableFirst(sets);
    PieceShape(sets[0]);
    assert "" + t == t;
    if |sets| == 1 {
      SplitNothing(t, ',');
    } else {
      PrintedFirst(sets);
      var rest := Printed(sets[1..]);
      assert t + ("," + ("\n" + rest)) == t + [','] + ("\n" + rest);
      SplitFirst(t, ',', "\n" + rest);
      SplitNewline(rest);
      SplitPrinted(sets[1..]);
      LinesPrefix(sets[1..]);
    }
  }

  lemma LinesPrefix(sets: seq<UuidSet>)
    requires sets != []
    ensures ["\n" + Lines(sets, "")[0]] + Lines(sets, "")[1..] == Lines(sets, "\n")
  {
    hide UuidText;
    var t := UuidText(sets[0].uuid, sets[0].intervals);
    assert "" + t == t;
  }

  lemma PrefixedText(p: string, u: string, s: seq<Interval>)
    ensures p + UuidText(u, s) == UuidText(p + u, s)
  {
    hide Join;
    var w := Join(IntervalTexts(s), ':');
    assert p + (u + [':'] + w) == p + u + [':'] + w;
  }

  lemma OnePiece(t: string, v: string)
    ensures Read([t], v) == if UuidOf(t) == v then ReadAll(Split(t, ':')[1..]) else []
    ensures Uuids([t]) == {UuidOf(t)}
  {
    hide Split;
    var items := if UuidOf(t) == v then Split(t, ':')[1..] else [];
    assert [t][..0] == [] && [] + items == items;
    assert Items([], v) == [] && Items([t], v) == items;
    assert ReadAll([]) == [];
    assert UuidOf([t][0]) == UuidOf(t);
  }

  /** The code takes the line break for a part of the UUID. */
  lemma OneLine(p: string, x: UuidSet, v: string)
    requires Printable([x]) && (p == "" || p == "\n")
    ensures var t := p + UuidText(x.uuid, x.intervals);
            && Read([t], v) == (if v == p + x.uuid then x.intervals else [])
            && Uuids([t]) == {p + x.uuid}
  {
    hide NormalForm, UuidText, Read, ReadAll, Uuids;
    assert x == [x][0] && x in [x];
    var t := p + UuidText(x.uuid, x.intervals);
    PrefixedText(p, x.uuid, x.intervals);
    assert ':' !in p + x.uuid;
    UuidOfText(p + x.uuid, x.intervals);
    ReadPieceText(p + x.uuid, x.intervals);
    OnePiece(t, v);
  }

  lemma TrimLine(p: string, u: string)
    requires u != "" && (forall c | c in u :: !IsSpace(c)) && (p == "" || p == "\n")
    ensures TrimSpace(p + u) == u
  {
    assert u[0] in u && u[|u| - 1] in u;
    assert TrimSpace(u) == u;
    if p == "" {
      assert p + u == u;
    } else {
      assert (p + u)[1..] == u;
    }
  }

  /** The name under which the code files the i-th line. */
  function LineName(sets: seq<UuidSet>, p: string, i: nat): string
    requires i < |sets|
  {
    (if i == 0 then p else "\n") + sets[i].uuid
  }

  ghost predicate OnLine(sets: seq<UuidSet>, p: string, i: int, v: string, n: nat) {
    0 <= i < |sets| && v == LineName(sets, p, i) && Covers(sets[i].intervals, n)
  }

  lemma {:induction false} LinesCover(sets: seq<UuidSet>, p: string, v: string, n: nat)
    requires Printable(sets) && (p == "" || p == "\n")
    ensures Covers(Read(Lines(sets, p), v), n) <==> exists i :: OnLine(sets, p, i, v, n)
  {
    hide Covers, Read, UuidText, NormalForm;
    if sets == [] {
      NothingCovered(v, n);
    } else {
      var t, rest := p + UuidText(sets[0].uuid, sets[0].intervals), sets[1..];
      PrintableFirst(sets);
      PrintableRest(sets);
      LinesCover(rest, "\n", v, n);
      OneLine(p, sets[0], v);
      ReadAppend([t], Lines(rest, "\n"), v);
      CoversAppend(Read([t], v), Read(Lines(rest, "\n"), v), n);
      EmptyCovers(n);
      if i :| OnLine(rest, "\n", i, v, n) {
        assert OnLine(sets, p, i + 1, v, n);
      }
      if i :| OnLine(sets, p, i, v, n) {
        assert i > 0 ==> OnLine(rest, "\n", i - 1, v, n);
        assert i == 0 ==> v == p + sets[0].uuid;
      }
      if v == p + sets[0].uuid && Covers(sets[0].intervals, n) {
        assert OnLine(sets, p, 0, v, n);
      }
    }
  }

  lemma EmptyCovers(n: nat)
    ensures !Covers([], n)
  {
  }

  lemma NothingCovered(v: string, n: nat)
    ensures !Covers(Read([], v), n)
  {
  }

  lemma PrintableRest(sets: seq<UuidSet>)
    requires Printable(sets) && sets != []
    ensures Printable(sets[1..])
  {
    hide NormalForm;
    assert forall x | x in sets[1..] :: x in sets;
  }

  /** Every name the code finds in a printed set has intervals. */
  lemma {:induction false} LinesNamed(sets: seq<UuidSet>, p: string, v: string)
    requires Printable(sets) && (p == "" || p == "\n")
    ensures v in Uuids(Lines(sets, p)) ==> Read(Lines(sets, p), v) != []
  {
    hide Read, UuidText, NormalForm;
    if sets == [] {
      assert Uuids([]) == {};
    } else {
      var t, rest := p + UuidText(sets[0].uuid, sets[0].intervals), sets[1..];
      PrintableFirst(sets);
      PrintableRest(sets);
      assert sets[0] in sets;
      LinesNamed(rest, "\n", v);
      OneLine(p, sets[0], v);
      ReadAppend([t], Lines(rest, "\n"), v);
      UuidsAppend([t], Lines(rest, "\n"));
    }
  }

  // ---------------------------------------------------------------- what printed text means

  /** MySQL reads its own text back as the set it printed. */
  lemma PrintedMeans(sets: seq<UuidSet>, u: string, n: nat)
    requires Printable(sets)
    ensures MysqlHas(Printed(sets), u, n) <==> (u, n) in Transactions(sets)
  {
    hide Covers, Read, Lines, Split, UuidText, NormalForm, TrimSpace, Transactions;
    TransactionsOf(sets, (u, n));
    if sets == [] {
      forall v ensures !Has(Printed(sets), v, n) {
        EmptyHasNothing(v, n);
      }
    } else {
      SplitPrinted(sets);
      if v :| TrimSpace(v) == u && Has(Printed(sets), v, n) {
        LinesCover(sets, "", v, n);
        var i :| OnLine(sets, "", i, v, n);
        assert sets[i] in sets;
        TrimLine(if i == 0 then "" else "\n", sets[i].uuid);
      }
      if i :| 0 <= i < |sets| && sets[i].uuid == u && Covers(sets[i].intervals, n) {
        var v := LineName(sets, "", i);
        assert OnLine(sets, "", i, v, n);
        LinesCover(sets, "", v, n);
        assert sets[i] in sets;
        TrimLine(if i == 0 then "" else "\n", sets[i].uuid);
        assert Has(Printed(sets), v, n);
      }
    }
  }

  /** One printed piece, with or without the line break before it. */
  lemma OneReads(p: string, x: UuidSet, u: string, n: nat)
    requires Printable([x]) && (p == "" || p == "\n")
    ensures MysqlHas(p + UuidText(x.uuid, x.intervals), u, n) <==> u == x.uuid && Covers(x.intervals, n)
  {
    hide Covers, Read, Split, UuidText, NormalForm, TrimSpace;
    var t := p + UuidText(x.uuid, x.intervals);
    PieceShape(x);
    assert ',' !in t;
    SplitNothing(t, ',');
    assert x in [x];
    TrimLine(p, x.uuid);
    EmptyCovers(n);
    forall v ensures Has(t, v, n) <==> v == p + x.uuid && Covers(x.intervals, n) {
      OneLine(p, x, v);
    }
  }

  // ---------------------------------------------------------------- unions in MySQL's reading

  /** GTIDSetUnion denotes the union in MySQL's reading as well: of all texts for transaction
      numbers from 1 up, and without that limit if no UUID stands bare. */
  lemma UnionInMysql(a: string, b: string, u: string, n: nat)
    requires n > 0 || !BareUuid(a, b)
    ensures MysqlHas(UnionText(a, b), u, n) <==> MysqlHas(a, u, n) || MysqlHas(b, u, n)
  {
    hide Has, UnionText, TrimSpace;
    forall v ensures Has(UnionText(a, b), v, n) <==> Has(a, v, n) || Has(b, v, n) {
      UnionHas(a, b, v, n);
    }
  }

  lemma PrintedNotBare(a: seq<UuidSet>, b: seq<UuidSet>)
    requires Printable(a) && Printable(b)
    ensures !BareUuid(Printed(a), Printed(b))
  {
    hide Read, Lines, Split, UuidText, Uuids, Printable;
    var s, t := Printed(a), Printed(b);
    if s != "" && t != "" {
      SplitPrinted(a);
      SplitPrinted(b);
      UuidsAppend(Split(s, ','), Split(t, ','));
      forall v | v in Uuids(Pieces(s, t)) ensures Read(Pieces(s, t), v) != [] {
        LinesNamed(a, "", v);
        LinesNamed(b, "", v);
        ReadAppend(Split(s, ','), Split(t, ','), v);
      }
    }
  }

  // ---------------------------------------------------------------- comparing members of a group

  /** The answer of MySQL to GTID_SUBTRACT(mine, theirs) is not empty. */
  ghost predicate SubtractNonempty(mine: string, theirs: string) {
    exists u: string, n: nat :: MysqlHas(mine, u, n) && !MysqlHas(theirs, u, n)
  }

  /** MGRGTIDGreaterThan, with GTIDBigger. */
  ghost predicate MgrGreater(executed: string, retrieved: string, theirExecuted: string, theirRetrieved: string) {
    SubtractNonempty(UnionText(executed, retrieved), UnionText(theirExecuted, theirRetrieved))
  }

  /** The transactions of two sets together. */
  function Both(a: seq<UuidSet>, b: seq<UuidSet>): set<(string, nat)> {
    Transactions(a) + Transactions(b)
  }

  /** A node refuses a candidate for its data exactly when it has executed or received some
      transaction that the candidate has neither executed nor received, whatever sets MySQL prints
      for the four. */
  lemma MgrGreaterMeans(e: seq<UuidSet>, r: seq<UuidSet>, f: seq<UuidSet>, q: seq<UuidSet>)
    requires Printable(e) && Printable(r) && Printable(f) && Printable(q)
    ensures MgrGreater(Printed(e), Printed(r), Printed(f), Printed(q)) <==> !(Both(e, r) <= Both(f, q))
  {
    hide MysqlHas, UnionText, Printed, Printable, Transactions, BareUuid;
    PrintedNotBare(e, r);
    PrintedNotBare(f, q);
    forall u: string, n: nat
      ensures MysqlHas(UnionText(Printed(e), Printed(r)), u, n) <==> (u, n) in Both(e, r)
      ensures MysqlHas(UnionText(Printed(f), Printed(q)), u, n) <==> (u, n) in Both(f, q)
    {
      UnionInMysql(Printed(e), Printed(r), u, n);
      UnionInMysql(Printed(f), Printed(q), u, n);
      PrintedMeans(e, u, n);
      PrintedMeans(r, u, n);
      PrintedMeans(f, u, n);
      PrintedMeans(q, u, n);
    }
    if MgrGreater(Printed(e), Printed(r), Printed(f), Printed(q)) {
      var u: string, n: nat :| (u, n) in Both(e, r) && (u, n) !in Both(f, q);
    } else {
      forall x | x in Both(e, r) ensures x in Both(f, q) {
        assert MysqlHas(UnionText(Printed(e), Printed(r)), x.0, x.1);
      }
    }
  }
}
