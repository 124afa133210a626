/** CheckGTID and GetLocalGTID (internal/database/mysql/api.go): does a node hold transactions of
    its own that a candidate lacks?  The node's part of a GTID set is found by looking for its
    UUID in the text that MySQL prints. */
module LocalGtid {
  import opened Text
  import opened Intervals
  import opened GtidSet
  import opened TrxCount
  import opened MysqlSet

  // ---------------------------------------------------------------- the node's own piece

  function FirstWith(pieces: seq<string>, uuid: string): string {
    if pieces == [] then "" else if Contains(pieces[0], uuid) then pieces[0] else FirstWith(pieces[1..], uuid)
  }

  method GetLocalGTID(gtid: string, uuidOk: bool, uuid: string) returns (piece: string)
    ensures piece == if gtid == "" || !uuidOk then "" else FirstWith(Split(gtid, ','), uuid)
  {
    if gtid == "" {
      return "";
    }
    if !uuidOk {
      return "";
    }
    var pieces := Split(gtid, ',');
    for i := 0 to |pieces|
      invariant FirstWith(pieces, uuid) == FirstWith(pieces[i..], uuid)
    {
      assert pieces[i..][1..] == pieces[i + 1..];
      if Contains(pieces[i], uuid) {
        return pieces[i];
      }
    }
    return "";
  }

  /** Like 3e11fa47-71ca-11e1-9e33-c80aa9429562. */
  ghost predicate UuidShaped(u: string) {
    |u| == 36 && u[8] == '-' && u[13] == '-' && forall c | c in u :: c != ':' && c != ',' && c != '\n'
  }

  ghost predicate Shaped(sets: seq<UuidSet>) {
    Printable(sets) && forall x | x in sets :: UuidShaped(x.uuid)
  }

  /** The intervals of one server. */
  function Local(sets: seq<UuidSet>, u: string): seq<Interval> {
    if sets == [] then [] else if sets[0].uuid == u then sets[0].intervals else Local(sets[1..], u)
  }

  lemma OneDash(v: Interval, a: int, b: int)
    requires 0 <= a < b < |IntervalText(v)| && IntervalText(v)[a] == '-'
    ensures IntervalText(v)[b] != '-'
  {
    hide Itoa;
    assert a == |Itoa(v.lo)| by {
      assert IsDigits(Itoa(v.lo)) && IsDigits(Itoa(v.hi));
    }
  }

  /** Between two hyphens of an interval list there is a colon. */
  lemma {:induction false} DashesApart(s: seq<Interval>, a: int, b: int)
    requires var w := Join(IntervalTexts(s), ':'); 0 <= a < b < |w| && w[a] == '-' && w[b] == '-'
    ensures var w := Join(IntervalTexts(s), ':'); exists k :: a < k < b && w[k] == ':'
  {
    hide IntervalText;
    var w, t := Join(IntervalTexts(s), ':'), IntervalText(s[0]);
    IntervalTextShape(s[0]);
    if b < |t| {
      OneDash(s[0], a, b);
    } else if |s| > 1 {
      assert IntervalTexts(s)[1..] == IntervalTexts(s[1..]);
      var rest := Join(IntervalTexts(s[1..]), ':');
      assert w == t + [':'] + rest;
      assert w[|t|] == ':';
      if a > |t| {
        var d := |t| + 1;
        assert rest[a - d] == w[a] && rest[b - d] == w[b];
        DashesApart(s[1..], a - d, b - d);
        var k :| a - d < k < b - d && rest[k] == ':';
        assert w[k + d] == ':';
      }
    }
  }

  lemma FoundInUuid(p: string, x: UuidSet, u: string, i: int)
    requires p == "" || p == "\n"
    requires UuidShaped(u) && UuidShaped(x.uuid)
    requires At(p + UuidText(x.uuid, x.intervals), i, u)
    ensures x.uuid == u
  {
    hide Join, IntervalTexts;
    var w := Join(IntervalTexts(x.intervals), ':');
    var t := p + UuidText(x.uuid, x.intervals);
    assert t == p + x.uuid + [':'] + w;
    forall q | i <= q < i + 36 ensures t[q] == u[q - i] && t[q] != ':' && t[q] != '\n' {
      assert t[i..i + 36][q - i] == u[q - i] && u[q - i] in u;
    }
    var e := |p| + 36;
    assert t[e] == ':' && (p == "\n" ==> t[0] == '\n');
    if i == |p| {
      assert t[i..i + 36] == x.uuid;
    } else {
      var j := i - e - 1;
      forall q | j <= q < j + 36 ensures w[q] == u[q - j] && w[q] != ':' {
        assert t[e + 1 + q] == w[q];
      }
      DashesApart(x.intervals, j + 8, j + 13);
    }
  }

  lemma PieceHasUuid(p: string, x: UuidSet, u: string)
    requires p == "" || p == "\n"
    requires UuidShaped(u) && UuidShaped(x.uuid)
    ensures Contains(p + UuidText(x.uuid, x.intervals), u) <==> x.uuid == u
  {
    hide Contains, UuidText;
    var t := p + UuidText(x.uuid, x.intervals);
    ContainsMeans(t, u);
    if i :| At(t, i, u) {
      FoundInUuid(p, x, u, i);
    }
    if x.uuid == u {
      UuidIsThere(p, x);
    }
  }

  lemma UuidIsThere(p: string, x: UuidSet)
    ensures At(p + UuidText(x.uuid, x.intervals), |p|, x.uuid)
  {
    hide Join, IntervalTexts;
    var w := [':'] + Join(IntervalTexts(x.intervals), ':');
    assert UuidText(x.uuid, x.intervals) == x.uuid + w;
  }

  /** A piece of text that MySQL reads, white space ignored, as the intervals s of server u. */
  ghost predicate Reads(piece: string, u: string, s: seq<Interval>) {
    if s == [] then piece == "" else piece == UuidText(u, s) || piece == "\n" + UuidText(u, s)
  }

  lemma {:induction false} FirstLine(sets: seq<UuidSet>, p: string, u: string)
    requires Shaped(sets) && UuidShaped(u) && (p == "" || p == "\n")
    ensures Reads(FirstWith(Lines(sets, p), u), u, Local(sets, u))
  {
    hide UuidText, Contains, UuidShaped, NormalForm;
    if sets == [] {
    } else {
      assert sets[0] in sets;
      PieceHasUuid(p, sets[0], u);
      var t := UuidText(sets[0].uuid, sets[0].intervals);
      assert "" + t == t;
      if sets[0].uuid != u {
        assert forall x | x in sets[1..] :: x in sets;
        FirstLine(sets[1..], "\n", u);
        assert Lines(sets, p)[1..] == Lines(sets[1..], "\n");
      }
    }
  }

  /** The piece found is the printed set of this server, or nothing if the set has none of it. */
  lemma LocalPiece(sets: seq<UuidSet>, u: string)
    requires Shaped(sets) && UuidShaped(u)
    ensures Reads(FirstWith(Split(Printed(sets), ','), u), u, Local(sets, u))
    ensures sets == [] <==> Printed(sets) == ""
  {
    hide UuidText, Contains, Split, Lines, Reads;
    DiffAgrees(sets);
    if sets == [] {
      NothingFound(u);
    } else {
      SplitPrinted(sets);
      FirstLine(sets, "", u);
    }
  }

  lemma NothingFound(u: string)
    requires UuidShaped(u)
    ensures FirstWith(Split(Printed([]), ','), u) == "" && Reads("", u, Local([], u))
  {
    assert Split("", ',') == [""];
    assert !Contains("", u);
  }

  // ---------------------------------------------------------------- CheckGTID

  /** Whether the node with this UUID is judged to hold transactions that the candidate lacks. */
  ghost predicate CheckGTID(executed: string, theirExecuted: string, uuid: string) {
    var mine := if executed == "" then "" else FirstWith(Split(executed, ','), uuid);
    var theirs := if theirExecuted == "" then "" else FirstWith(Split(theirExecuted, ','), uuid);
    mine != "" && theirs != "" && SubtractNonempty(mine, theirs)
  }

  /** MySQL reads the piece as the transactions of this server. */
  lemma ReadsMeans(piece: string, u: string, s: seq<Interval>, v: string, n: nat)
    requires Printable([UuidSet(u, s)]) && s != [] && Reads(piece, u, s)
    ensures MysqlHas(piece, v, n) <==> v == u && Covers(s, n)
    ensures piece != ""
  {
    hide Covers, MysqlHas, Printable, NormalForm, UuidText;
    var p := if piece == UuidText(u, s) then "" else "\n";
    OneReads(p, UuidSet(u, s), v, n);
    assert "" + UuidText(u, s) == UuidText(u, s);
    PieceShape(UuidSet(u, s));
  }

  lemma {:induction false} LocalIs(sets: seq<UuidSet>, u: string, n: nat)
    requires Printable(sets)
    ensures (u, n) in Transactions(sets) <==> Covers(Local(sets, u), n)
  {
    hide NormalForm, Covers;
    if sets == [] {
      NumbersAre([], n);
    } else {
      NumbersAre(sets[0].intervals, n);
      if sets[0].uuid == u {
        TransactionsOf(sets[1..], (u, n));
      } else {
        assert forall x | x in sets[1..] :: x in sets;
        LocalIs(sets[1..], u, n);
      }
    }
  }

  lemma {:induction false} LocalProper(sets: seq<UuidSet>, u: string)
    requires Printable(sets)
    ensures Local(sets, u) != [] ==> Covers(Local(sets, u), Local(sets, u)[0].lo)
  {
    hide Covers;
    if sets == [] {
    } else {
      if sets[0].uuid == u {
        FirstNumber(sets[0]);
      } else {
        assert forall x | x in sets[1..] :: x in sets;
        LocalProper(sets[1..], u);
      }
    }
  }

  lemma FirstNumber(x: UuidSet)
    requires NormalForm(x.intervals) && x.intervals != []
    ensures Covers(x.intervals, x.intervals[0].lo)
  {
  }

  /** This server's transactions that one set has and the other lacks. */
  ghost predicate OwnMissing(mine: seq<UuidSet>, theirs: seq<UuidSet>, u: string) {
    exists n: nat :: (u, n) in Transactions(mine) && (u, n) !in Transactions(theirs)
  }

  ghost predicate HasOwn(sets: seq<UuidSet>, u: string) {
    exists n: nat :: (u, n) in Transactions(sets)
  }

  lemma HasOwnIs(sets: seq<UuidSet>, u: string)
    requires Printable(sets)
    ensures HasOwn(sets, u) <==> Local(sets, u) != []
  {
    hide Transactions, Local, Printable;
    if n: nat :| (u, n) in Transactions(sets) {
      LocalIs(sets, u, n);
    }
    if Local(sets, u) != [] {
      LocalProper(sets, u);
      LocalIs(sets, u, Local(sets, u)[0].lo);
    }
  }

  lemma {:induction false} LocalPrintable(sets: seq<UuidSet>, u: string)
    requires Printable(sets) && Local(sets, u) != []
    ensures Printable([UuidSet(u, Local(sets, u))])
  {
    hide NormalForm;
    if sets[0].uuid == u {
      PrintableFirst(sets);
      assert sets[0] == UuidSet(u, Local(sets, u));
    } else {
      assert forall x | x in sets[1..] :: x in sets;
      LocalPrintable(sets[1..], u);
    }
  }

  /** The judgement is right exactly while the candidate holds some transaction of this server: a
      candidate without any passes for one that lacks nothing. */
  lemma CheckGtidMeans(mine: seq<UuidSet>, theirs: seq<UuidSet>, u: string)
    requires Shaped(mine) && Shaped(theirs) && UuidShaped(u)
    ensures CheckGTID(Printed(mine), Printed(theirs), u) <==> OwnMissing(mine, theirs, u) && HasOwn(theirs, u)
  {
    hide FirstWith, Split, Printed, Transactions, Local, Printable, UuidShaped, Reads, Covers, MysqlHas;
    LocalPiece(mine, u);
    LocalPiece(theirs, u);
    HasOwnIs(mine, u);
    HasOwnIs(theirs, u);
    PieceEmpty(mine, u);
    PieceEmpty(theirs, u);
    var p, q := FirstWith(Split(Printed(mine), ','), u), FirstWith(Split(Printed(theirs), ','), u);
    if Local(mine, u) != [] && Local(theirs, u) != [] {
      LocalPrintable(mine, u);
      LocalPrintable(theirs, u);
      forall v: string, n: nat
        ensures MysqlHas(p, v, n) <==> v == u && (u, n) in Transactions(mine)
        ensures MysqlHas(q, v, n) <==> v == u && (u, n) in Transactions(theirs)
      {
        ReadsMeans(p, u, Local(mine, u), v, n);
        ReadsMeans(q, u, Local(theirs, u), v, n);
        LocalIs(mine, u, n);
        LocalIs(theirs, u, n);
      }
      if OwnMissing(mine, theirs, u) {
        var n: nat :| (u, n) in Transactions(mine) && (u, n) !in Transactions(theirs);
        assert MysqlHas(p, u, n) && !MysqlHas(q, u, n);
      }
    }
  }

  lemma PieceEmpty(sets: seq<UuidSet>, u: string)
    requires Shaped(sets) && UuidShaped(u)
    ensures var p := FirstWith(Split(Printed(sets), ','), u); (p == "" <==> Local(sets, u) == [])
    ensures sets == [] ==> Local(sets, u) == []
  {
    hide FirstWith, Split, Printed, UuidShaped, Printable;
    LocalPiece(sets, u);
  }
}
