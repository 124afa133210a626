/** GTIDSetUnion (internal/database/mysql/api.go) from text to text.  A set is read piece by
    piece, grouped by UUID, sorted, merged and printed; its meaning is the set of pairs of a UUID
    and a number that its intervals cover when the code reads them. */
module GtidSet {
  import opened Text
  import opened Sorting
  import opened Intervals

  // ---------------------------------------------------------------- reading

  /** The value strconv.Atoi returns for text between dashes. */
  function ReadNumber(t: string): Number
    requires '-' !in t
  {
    assert t != "" ==> t[0] in t;
    Atoi(t).value
  }

  /** "7" or "10-12": the first and the last part between dashes. */
  function ReadInterval(t: string): Interval {
    var parts := Split(t, '-');
    Interval(ReadNumber(parts[0]), ReadNumber(parts[|parts| - 1]))
  }

  function ReadAll(items: seq<string>): (s: seq<Interval>)
    ensures |s| == |items| && forall i | 0 <= i < |items| :: s[i] == ReadInterval(items[i])
  {
    seq(|items|, i requires 0 <= i < |items| => ReadInterval(items[i]))
  }

  function UuidOf(piece: string): string {
    Split(piece, ':')[0]
  }

  /** The interval texts that the pieces give for a UUID, in order. */
  function Items(pieces: seq<string>, u: string): seq<string> {
    if pieces == [] then []
    else
      var k := |pieces| - 1;
      Items(pieces[..k], u) + if UuidOf(pieces[k]) == u then Split(pieces[k], ':')[1..] else []
  }

  function Uuids(pieces: seq<string>): set<string> {
    set i | 0 <= i < |pieces| :: UuidOf(pieces[i])
  }

  function Read(pieces: seq<string>, u: string): seq<Interval> {
    ReadAll(Items(pieces, u))
  }

  /** Transaction n of server u belongs to the set that the text denotes. */
  ghost predicate Has(gtids: string, u: string, n: nat) {
    Covers(Read(Split(gtids, ','), u), n)
  }

  // ---------------------------------------------------------------- printing

  function IntervalText(v: Interval): string {
    if v.lo == v.hi then Itoa(v.lo) else Itoa(v.lo) + ['-'] + Itoa(v.hi)
  }

  function IntervalTexts(s: seq<Interval>): (t: seq<string>)
    ensures |t| == |s| && forall i | 0 <= i < |s| :: t[i] == IntervalText(s[i])
  {
    seq(|s|, i requires 0 <= i < |s| => IntervalText(s[i]))
  }

  function UuidText(u: string, s: seq<Interval>): string {
    u + [':'] + Join(IntervalTexts(s), ':')
  }

  function PieceTexts(pieces: seq<string>, order: seq<string>): (t: seq<string>)
    ensures |t| == |order|
    ensures forall i | 0 <= i < |order| :: t[i] == UuidText(order[i], Normalize(Read(pieces, order[i])))
  {
    seq(|order|, i requires 0 <= i < |order| => UuidText(order[i], Normalize(Read(pieces, order[i]))))
  }

  /** The union's text when the UUIDs are visited in the given order. */
  function Render(pieces: seq<string>, order: seq<string>): string {
    Join(Sort(PieceTexts(pieces, order), NotAfter), ',')
  }

  ghost predicate Distinct<T(!new)>(s: seq<T>) {
    forall i, j | 0 <= i < j < |s| :: s[i] != s[j]
  }

  /** A way in which Go may iterate over a map with these keys. */
  ghost predicate Lists(order: seq<string>, keys: set<string>) {
    Distinct(order) && forall u :: u in order <==> u in keys
  }

  lemma {:induction false} ListingExists(keys: set<string>)
    ensures exists order :: Lists(order, keys)
  {
    if keys == {} {
      assert Lists([], keys);
    } else {
      var u :| u in keys;
      ListingExists(keys - {u});
      var order :| Lists(order, keys - {u});
      assert Lists(order + [u], keys);
    }
  }

  function Pieces(a: string, b: string): seq<string> {
    Split(a, ',') + Split(b, ',')
  }

  /** What GTIDSetUnion returns. */
  ghost function UnionText(a: string, b: string): string {
    if a == "" then b
    else if b == "" then a
    else
      ListingExists(Uuids(Pieces(a, b)));
      var order :| Lists(order, Uuids(Pieces(a, b)));
      Render(Pieces(a, b), order)
  }

  // ---------------------------------------------------------------- the order of iteration

  lemma NotAfterIsTotal()
    ensures TotalOrder(NotAfter)
  {
    forall a, b ensures NotAfter(a, b) || NotAfter(b, a) {
      BeforeTrichotomy(a, b);
    }
    forall a, b | NotAfter(a, b) && NotAfter(b, a) ensures a == b {
      BeforeTrichotomy(a, b);
    }
    forall a, b, c | NotAfter(a, b) && NotAfter(b, c) ensures NotAfter(a, c) {
      NotAfterTransitive(a, b, c);
    }
  }

  lemma NotAfterTransitive(a: string, b: string, c: string)
    requires NotAfter(a, b) && NotAfter(b, c)
    ensures NotAfter(a, c)
  {
    BeforeTrichotomy(a, b);
    BeforeTrichotomy(b, c);
    BeforeTrichotomy(a, c);
    if Before(a, b) && Before(b, c) {
      BeforeTransitive(a, b, c);
    }
  }

  lemma {:induction false} DistinctCounts<T(!new)>(s: seq<T>, x: T)
    requires Distinct(s)
    ensures multiset(s)[x] == if x in s then 1 else 0
  {
    if s == [] {
    } else {
      DistinctCounts(s[1..], x);
      assert s == [s[0]] + s[1..];
    }
  }

  lemma DistinctSame<T(!new)>(a: seq<T>, b: seq<T>)
    requires Distinct(a) && Distinct(b) && forall x :: x in a <==> x in b
    ensures multiset(a) == multiset(b)
  {
    forall x ensures multiset(a)[x] == multiset(b)[x] {
      DistinctCounts(a, x);
      DistinctCounts(b, x);
    }
  }

  lemma UuidOfText(u: string, s: seq<Interval>)
    requires ':' !in u
    ensures UuidOf(UuidText(u, s)) == u
    ensures Split(UuidText(u, s), ':')[1..] == Split(Join(IntervalTexts(s), ':'), ':')
  {
    SplitFirst(u, ':', Join(IntervalTexts(s), ':'));
  }

  lemma UuidsHaveNoColon(pieces: seq<string>)
    ensures forall u | u in Uuids(pieces) :: ':' !in u
  {
  }

  lemma TextsDistinct(pieces: seq<string>, order: seq<string>)
    requires Lists(order, Uuids(pieces))
    ensures Distinct(PieceTexts(pieces, order))
  {
    UuidsHaveNoColon(pieces);
    var t := PieceTexts(pieces, order);
    forall i, j | 0 <= i < j < |t| ensures t[i] != t[j] {
      UuidOfText(order[i], Normalize(Read(pieces, order[i])));
      UuidOfText(order[j], Normalize(Read(pieces, order[j])));
    }
  }

  lemma TextInBoth(p: seq<string>, o: seq<string>, q: seq<string>, r: seq<string>, x: string)
    requires forall u | u in o :: u in r && Normalize(Read(p, u)) == Normalize(Read(q, u))
    requires x in PieceTexts(p, o)
    ensures x in PieceTexts(q, r)
  {
    var i :| 0 <= i < |o| && PieceTexts(p, o)[i] == x;
    var j :| 0 <= j < |r| && r[j] == o[i];
    assert PieceTexts(q, r)[j] == x;
  }

  /** Pieces that group to the same normal forms render to the same text, whatever the orders of
      iteration over the two maps. */
  lemma RenderSame(p: seq<string>, o: seq<string>, q: seq<string>, r: seq<string>)
    requires Lists(o, Uuids(p)) && Lists(r, Uuids(q)) && Uuids(p) == Uuids(q)
    requires forall u | u in Uuids(p) :: Normalize(Read(p, u)) == Normalize(Read(q, u))
    ensures Render(p, o) == Render(q, r)
  {
    hide Read, Normalize, Uuids;
    var s, t := PieceTexts(p, o), PieceTexts(q, r);
    TextsDistinct(p, o);
    TextsDistinct(q, r);
    forall x ensures x in s <==> x in t {
      if x in s {
        TextInBoth(p, o, q, r, x);
      }
      if x in t {
        TextInBoth(q, r, p, o, x);
      }
    }
    DistinctSame(s, t);
    NotAfterIsTotal();
    SortPermuted(s, t, NotAfter);
  }

  // ---------------------------------------------------------------- grouping

  lemma {:induction false} ItemsAppend(p: seq<string>, q: seq<string>, u: string)
    ensures Items(p + q, u) == Items(p, u) + Items(q, u)
  {
    hide UuidOf, Split;
    if q == [] {
      assert p + q == p;
    } else {
      var k := |q| - 1;
      ItemsAppend(p, q[..k], u);
      assert (p + q)[..|p + q| - 1] == p + q[..k];
    }
  }

  lemma ReadAppend(p: seq<string>, q: seq<string>, u: string)
    ensures Read(p + q, u) == Read(p, u) + Read(q, u)
  {
    hide Items, ReadInterval;
    ItemsAppend(p, q, u);
    ReadAllAppend(Items(p, u), Items(q, u));
  }

  lemma ReadAllAppend(a: seq<string>, b: seq<string>)
    ensures ReadAll(a + b) == ReadAll(a) + ReadAll(b)
  {
    hide ReadInterval;
  }

  lemma UuidsAppend(p: seq<string>, q: seq<string>)
    ensures Uuids(p + q) == Uuids(p) + Uuids(q)
  {
    forall u ensures u in Uuids(p + q) <==> u in Uuids(p) + Uuids(q) {
      if u in Uuids(p) {
        var i :| 0 <= i < |p| && UuidOf(p[i]) == u;
        assert (p + q)[i] == p[i];
      }
      if u in Uuids(q) {
        var i :| 0 <= i < |q| && UuidOf(q[i]) == u;
        assert (p + q)[|p| + i] == q[i];
      }
    }
  }

  lemma {:induction false} NoItems(pieces: seq<string>, u: string)
    requires u !in Uuids(pieces)
    ensures Items(pieces, u) == []
  {
    if pieces == [] {
    } else {
      var k := |pieces| - 1;
      assert UuidOf(pieces[k]) in Uuids(pieces);
      assert forall i | 0 <= i < k :: UuidOf(pieces[..k][i]) == UuidOf(pieces[i]);
      NoItems(pieces[..k], u);
    }
  }

  lemma CoversAppend(a: seq<Interval>, b: seq<Interval>, n: nat)
    ensures Covers(a + b, n) <==> Covers(a, n) || Covers(b, n)
  {
    if Covers(a, n) {
      var i :| 0 <= i < |a| && a[i].lo <= n <= a[i].hi;
      assert (a + b)[i] == a[i];
    }
    if Covers(b, n) {
      var i :| 0 <= i < |b| && b[i].lo <= n <= b[i].hi;
      assert (a + b)[|a| + i] == b[i];
    }
  }

  // ---------------------------------------------------------------- reading what was printed

  lemma ReadItoa(n: Number)
    ensures forall c | c in {'-', ':', ','} :: c !in Itoa(n)
    ensures ReadNumber(Itoa(n)) == n
  {
    AtoiItoa(n);
    forall c | c in {'-', ':', ','} ensures c !in Itoa(n) {
      ItoaAvoids(n, c);
    }
  }

  lemma ReadIntervalText(v: Interval)
    ensures ReadInterval(IntervalText(v)) == v
    ensures ':' !in IntervalText(v) && ',' !in IntervalText(v)
  {
    hide Itoa, Atoi, Split;
    ReadItoa(v.lo);
    ReadItoa(v.hi);
    SplitNothing(Itoa(v.hi), '-');
    if v.lo != v.hi {
      SplitFirst(Itoa(v.lo), '-', Itoa(v.hi));
    }
  }

  lemma ReadTexts(s: seq<Interval>)
    ensures ReadAll(IntervalTexts(s)) == s
    ensures forall t | t in IntervalTexts(s) :: ':' !in t && ',' !in t
  {
    forall i | 0 <= i < |s| ensures ReadInterval(IntervalTexts(s)[i]) == s[i] && ':' !in IntervalTexts(s)[i]
        && ',' !in IntervalTexts(s)[i] {
      ReadIntervalText(s[i]);
    }
  }

  /** Reading a printed piece gives its intervals back; a piece printed without any reads as the
      single number 0. */
  lemma ReadPieceText(u: string, s: seq<Interval>)
    requires ':' !in u
    ensures ReadAll(Split(UuidText(u, s), ':')[1..]) == if s == [] then [Interval(0, 0)] else s
  {
    UuidOfText(u, s);
    ReadTexts(s);
    if s != [] {
      SplitJoin(IntervalTexts(s), ':');
    } else {
      assert Split("", ':') == [""] && Split("", '-') == [""];
    }
  }

  lemma PieceTextHasNoComma(u: string, s: seq<Interval>)
    requires ',' !in u
    ensures ',' !in UuidText(u, s)
  {
    ReadTexts(s);
    JoinAvoids(IntervalTexts(s), ':', ',');
  }

  lemma {:induction false} ItemsOfOne(pieces: seq<string>, k: nat, u: string)
    requires k < |pieces| && UuidOf(pieces[k]) == u
    requires forall i | 0 <= i < |pieces| && i != k :: UuidOf(pieces[i]) != u
    ensures Items(pieces, u) == Split(pieces[k], ':')[1..]
  {
    var l := |pieces| - 1;
    if k == l {
      assert forall i | 0 <= i < l :: UuidOf(pieces[..l][i]) != u;
      NoItems(pieces[..l], u);
    } else {
      ItemsOfOne(pieces[..l], k, u);
    }
  }

  /** No UUID contains a comma, as the pieces come from cutting at commas. */
  ghost predicate Cut(pieces: seq<string>) {
    pieces != [] && forall p | p in pieces :: ',' !in p
  }

  lemma {:induction false} PrefixAvoids(s: string, c: char, d: char)
    requires d !in s
    ensures forall p | p in Split(s, c) :: d !in p
  {
    if s == "" {
    } else {
      PrefixAvoids(s[1..], c, d);
    }
  }

  lemma CutUuids(pieces: seq<string>)
    requires Cut(pieces)
    ensures Uuids(pieces) != {} && forall u | u in Uuids(pieces) :: ',' !in u && ':' !in u
  {
    assert UuidOf(pieces[0]) in Uuids(pieces);
    forall i | 0 <= i < |pieces| ensures ',' !in UuidOf(pieces[i]) {
      PrefixAvoids(pieces[i], ':', ',');
    }
  }

  /** Cutting the rendered text at its commas gives the sorted piece texts. */
  lemma SplitRender(pieces: seq<string>, order: seq<string>)
    requires Cut(pieces) && Lists(order, Uuids(pieces))
    ensures Split(Render(pieces, order), ',') == Sort(PieceTexts(pieces, order), NotAfter)
    ensures order != []
  {
    hide UuidText, Normalize, Read, Sort;
    CutUuids(pieces);
    NotAfterIsTotal();
    var t := PieceTexts(pieces, order);
    SortMembers(t, NotAfter);
    var u :| u in Uuids(pieces);
    assert u in order;
    forall x | x in t ensures ',' !in x {
      var i :| 0 <= i < |t| && t[i] == x;
      PieceTextHasNoComma(order[i], Normalize(Read(pieces, order[i])));
    }
    SplitJoin(Sort(t, NotAfter), ',');
  }

  lemma DistinctSorted(t: seq<string>)
    requires Distinct(t)
    ensures Distinct(Sort(t, NotAfter))
  {
    NotAfterIsTotal();
    SortSorts(t, NotAfter);
    var s := Sort(t, NotAfter);
    forall i, j | 0 <= i < j < |s| ensures s[i] != s[j] {
      if s[i] == s[j] {
        DistinctCounts(t, s[i]);
        TwiceCounted(s, i, j);
      }
    }
  }

  lemma TwiceCounted<T(!new)>(s: seq<T>, i: nat, j: nat)
    requires i < j < |s| && s[i] == s[j]
    ensures multiset(s)[s[i]] >= 2
  {
    assert s == s[..j] + s[j..];
    assert s[..j][i] == s[i] && s[j..][0] == s[j];
    assert s[i] in multiset(s[..j]) && s[j] in multiset(s[j..]);
  }

  /** What the rendered text means for a UUID: its normal form. */
  lemma ReadRender(pieces: seq<string>, order: seq<string>, u: string)
    requires Cut(pieces) && Lists(order, Uuids(pieces))
    ensures var back, s := Split(Render(pieces, order), ','), Normalize(Read(pieces, u));
            Read(back, u) == if u !in Uuids(pieces) then [] else if s == [] then [Interval(0, 0)] else s
    ensures u in Uuids(Split(Render(pieces, order), ',')) <==> u in Uuids(pieces)
  {
    CutUuids(pieces);
    SplitRender(pieces, order);
    TextsDistinct(pieces, order);
    NotAfterIsTotal();
    var t := PieceTexts(pieces, order);
    var ts := Sort(t, NotAfter);
    SortMembers(t, NotAfter);
    DistinctSorted(t);
    forall i | 0 <= i < |ts| ensures exists j :: 0 <= j < |order| && ts[i] == t[j] && UuidOf(ts[i]) == order[j] {
      assert ts[i] in t;
      var j :| 0 <= j < |t| && t[j] == ts[i];
      UuidOfText(order[j], Normalize(Read(pieces, order[j])));
    }
    if u in Uuids(pieces) {
      var j :| 0 <= j < |order| && order[j] == u;
      assert t[j] in ts;
      var k :| 0 <= k < |ts| && ts[k] == t[j];
      UuidOfText(u, Normalize(Read(pieces, u)));
      ItemsOfOne(ts, k, u);
      ReadPieceText(u, Normalize(Read(pieces, u)));
    } else {
      NoItems(ts, u);
    }
  }

  // ---------------------------------------------------------------- the union denotes the union

  lemma SplitIsCut(a: string, b: string)
    ensures Cut(Pieces(a, b))
  {
    forall p | p in Pieces(a, b) ensures ',' !in p {
      assert p in Split(a, ',') || p in Split(b, ',');
    }
  }

  /** The order in which the code happened to iterate does not show in its result. */
  lemma UnionTextIs(a: string, b: string, order: seq<string>)
    requires a != "" && b != "" && Lists(order, Uuids(Pieces(a, b)))
    ensures UnionText(a, b) == Render(Pieces(a, b), order)
  {
    ListingExists(Uuids(Pieces(a, b)));
    var any :| Lists(any, Uuids(Pieces(a, b))) && UnionText(a, b) == Render(Pieces(a, b), any);
    RenderSame(Pieces(a, b), any, Pieces(a, b), order);
  }

  /** Reading a union back, UUID by UUID. */
  lemma ReadUnion(a: string, b: string, u: string)
    requires a != "" && b != ""
    ensures var p, back := Pieces(a, b), Split(UnionText(a, b), ',');
            && Read(back, u) == (if u !in Uuids(p) then []
                                 else if Read(p, u) == [] then [Interval(0, 0)] else Normalize(Read(p, u)))
            && (u in Uuids(back) <==> u in Uuids(p))
  {
    var p := Pieces(a, b);
    ListingExists(Uuids(p));
    var order :| Lists(order, Uuids(p));
    UnionTextIs(a, b, order);
    SplitIsCut(a, b);
    ReadRender(p, order, u);
    NormalizeEmpty(Read(p, u));
  }

  lemma NormalizeEmpty(s: seq<Interval>)
    ensures Normalize(s) == [] <==> s == []
  {
    InOrderIsTotal();
    SortSorts(s, InOrder);
    SortMembers(s, InOrder);
    MergeLast(Sort(s, InOrder));
  }

  lemma PiecesCover(a: string, b: string, u: string, n: nat)
    ensures Covers(Read(Pieces(a, b), u), n) <==> Has(a, u, n) || Has(b, u, n)
  {
    ReadAppend(Split(a, ','), Split(b, ','), u);
    CoversAppend(Read(Split(a, ','), u), Read(Split(b, ','), u), n);
  }

  lemma EmptyHasNothing(u: string, n: nat)
    ensures !Has("", u, n)
  {
    assert Split("", ',') == [""] && Split("", ':') == [""];
    assert Items([""], u) == Items([], u) + [] == [];
  }

  /** Some UUID is named without any interval in either text. */
  ghost predicate BareUuid(a: string, b: string) {
    a != "" && b != "" && exists u :: u in Uuids(Pieces(a, b)) && Read(Pieces(a, b), u) == []
  }

  lemma UnionWithEmpty(a: string)
    ensures UnionText(a, "") == a && UnionText("", a) == a
  {
  }

  lemma ZeroCovers(n: nat)
    ensures Covers([Interval(0, 0)], n) ==> n == 0
    ensures !Covers([], n)
  {
  }

  /** A bare UUID gains the number 0 at most; all other numbers are kept in any case. */
  lemma UnionHas(a: string, b: string, u: string, n: nat)
    requires n > 0 || !(a != "" && b != "" && u in Uuids(Pieces(a, b)) && Read(Pieces(a, b), u) == [])
    ensures Has(UnionText(a, b), u, n) <==> Has(a, u, n) || Has(b, u, n)
  {
    hide UnionText, Normalize, Split, Uuids, Items, Covers;
    if a == "" || b == "" {
      EmptyHasNothing(u, n);
      UnionWithEmpty(a);
      UnionWithEmpty(b);
    } else {
      ZeroCovers(n);
      ReadUnion(a, b, u);
      PiecesCover(a, b, u, n);
      NormalizeCovers(Read(Pieces(a, b), u), n);
      if u !in Uuids(Pieces(a, b)) {
        NoItems(Pieces(a, b), u);
      }
    }
  }

  /** GTIDSetUnion denotes the union of what its arguments denote, for all texts but those that
      name a UUID without intervals; that UUID is printed so that it reads as transaction 0. */
  lemma UnionDenotesUnion(a: string, b: string)
    ensures (forall u: string, n: nat :: Has(UnionText(a, b), u, n) <==> Has(a, u, n) || Has(b, u, n))
            <==> !BareUuid(a, b)
  {
    if BareUuid(a, b) {
      var u :| u in Uuids(Pieces(a, b)) && Read(Pieces(a, b), u) == [];
      ReadUnion(a, b, u);
      PiecesCover(a, b, u, 0);
      assert [Interval(0, 0)][0].lo <= 0 <= [Interval(0, 0)][0].hi;
      assert Has(UnionText(a, b), u, 0);
    } else {
      forall u: string, n: nat ensures Has(UnionText(a, b), u, n) <==> Has(a, u, n) || Has(b, u, n) {
        UnionHas(a, b, u, n);
      }
    }
  }

  // ---------------------------------------------------------------- the normal form of the text

  /** A text as MySQL writes GTID sets: every UUID has intervals, from its lowest number up, and
      no number is so large that its successor overflows. */
  ghost predicate WellFormed(gtids: string) {
    gtids != "" && forall u | u in Uuids(Split(gtids, ',')) ::
                     Read(Split(gtids, ','), u) != [] && Proper(Read(Split(gtids, ','), u))
  }

  lemma PiecesProper(a: string, b: string, u: string)
    requires WellFormed(a) && WellFormed(b) && u in Uuids(Pieces(a, b))
    ensures Read(Pieces(a, b), u) != [] && Proper(Read(Pieces(a, b), u))
  {
    var p, q := Split(a, ','), Split(b, ',');
    UuidsAppend(p, q);
    ReadAppend(p, q, u);
    if u !in Uuids(p) {
      NoItems(p, u);
    }
    if u !in Uuids(q) {
      NoItems(q, u);
    }
  }

  /** The union of well-formed sets is well-formed, and for each UUID its printed intervals are in
      increasing order with at least one number missing between any two. */
  lemma UnionIsNormal(a: string, b: string)
    requires WellFormed(a) && WellFormed(b)
    ensures WellFormed(UnionText(a, b))
    ensures forall u :: NormalForm(Read(Split(UnionText(a, b), ','), u))
  {
    var back := Split(UnionText(a, b), ',');
    forall u ensures NormalForm(Read(back, u)) && (u in Uuids(back) ==> Read(back, u) != [] && Proper(Read(back, u))) {
      ReadUnion(a, b, u);
      if u in Uuids(Pieces(a, b)) {
        PiecesProper(a, b, u);
        NormalizeNormal(Read(Pieces(a, b), u));
      }
    }
    if UnionText(a, b) == "" {
      NothingRead();
      SplitIsCut(a, b);
      CutUuids(Pieces(a, b));
      var u :| u in Uuids(Pieces(a, b));
      ReadUnion(a, b, u);
      PiecesProper(a, b, u);
      NormalizeEmpty(Read(Pieces(a, b), u));
    }
  }

  lemma NothingRead()
    ensures forall u :: Read(Split("", ','), u) == []
  {
    assert Split("", ',') == [""] && Split("", ':') == [""];
    forall u ensures Read([""], u) == [] {
      assert Items([""], u) == Items([], u) + [] == [];
    }
  }

  // ---------------------------------------------------------------- the laws

  lemma NonemptyCovers(s: seq<Interval>)
    requires s != [] && Proper(s)
    ensures Covers(s, s[0].lo)
  {
    assert s[0] in s && s[0].lo <= s[0].lo <= s[0].hi;
  }

  /** A well-formed text names exactly the UUIDs of which it has transactions. */
  lemma NamedIffHas(a: string, b: string, u: string)
    requires WellFormed(a) && WellFormed(b)
    ensures u in Uuids(Pieces(a, b)) <==> exists n: nat :: Covers(Read(Pieces(a, b), u), n)
  {
    if u in Uuids(Pieces(a, b)) {
      PiecesProper(a, b, u);
      NonemptyCovers(Read(Pieces(a, b), u));
    } else {
      NoItems(Pieces(a, b), u);
    }
  }

  /** The union's text is a function of the set it denotes. */
  lemma SameSetSameText(a: string, b: string, c: string, d: string)
    requires WellFormed(a) && WellFormed(b) && WellFormed(c) && WellFormed(d)
    requires forall u: string, n: nat :: (Has(a, u, n) || Has(b, u, n)) <==> (Has(c, u, n) || Has(d, u, n))
    ensures UnionText(a, b) == UnionText(c, d)
  {
    var p, q := Pieces(a, b), Pieces(c, d);
    forall u: string, n: nat ensures Covers(Read(p, u), n) <==> Covers(Read(q, u), n) {
      PiecesCover(a, b, u, n);
      PiecesCover(c, d, u, n);
    }
    forall u ensures u in Uuids(p) <==> u in Uuids(q) {
      NamedIffHas(a, b, u);
      NamedIffHas(c, d, u);
    }
    forall u | u in Uuids(p) ensures Normalize(Read(p, u)) == Normalize(Read(q, u)) {
      PiecesProper(a, b, u);
      PiecesProper(c, d, u);
      NormalizeNormal(Read(p, u));
      NormalizeNormal(Read(q, u));
      forall n: nat ensures Covers(Normalize(Read(p, u)), n) <==> Covers(Normalize(Read(q, u)), n) {
        NormalizeCovers(Read(p, u), n);
        NormalizeCovers(Read(q, u), n);
      }
      NormalFormUnique(Normalize(Read(p, u)), Normalize(Read(q, u)));
    }
    SameRendering(a, b, c, d);
  }

  lemma SameRendering(a: string, b: string, c: string, d: string)
    requires a != "" && b != "" && c != "" && d != ""
    requires Uuids(Pieces(a, b)) == Uuids(Pieces(c, d))
    requires forall u | u in Uuids(Pieces(a, b)) :: Normalize(Read(Pieces(a, b), u)) == Normalize(Read(Pieces(c, d), u))
    ensures UnionText(a, b) == UnionText(c, d)
  {
    ListingExists(Uuids(Pieces(a, b)));
    var o :| Lists(o, Uuids(Pieces(a, b)));
    UnionTextIs(a, b, o);
    UnionTextIs(c, d, o);
    RenderSame(Pieces(a, b), o, Pieces(c, d), o);
  }

  /** Commutative on all texts, malformed ones included. */
  lemma UnionCommutes(a: string, b: string)
    ensures UnionText(a, b) == UnionText(b, a)
  {
    if a != "" && b != "" {
      var p, q := Split(a, ','), Split(b, ',');
      UuidsAppend(p, q);
      UuidsAppend(q, p);
      InOrderIsTotal();
      forall u ensures Normalize(Read(p + q, u)) == Normalize(Read(q + p, u)) {
        ReadAppend(p, q, u);
        ReadAppend(q, p, u);
        SortPermuted(Read(p, u) + Read(q, u), Read(q, u) + Read(p, u), InOrder);
      }
      SameRendering(a, b, b, a);
    }
  }

  lemma WellFormedUnionHas(a: string, b: string, u: string, n: nat)
    requires WellFormed(a) && WellFormed(b)
    ensures Has(UnionText(a, b), u, n) <==> Has(a, u, n) || Has(b, u, n)
  {
    if u in Uuids(Pieces(a, b)) {
      PiecesProper(a, b, u);
    }
    UnionHas(a, b, u, n);
  }

  /** Associative, also where an argument is the empty text. */
  lemma UnionAssociates(a: string, b: string, c: string)
    requires forall x | x in {a, b, c} :: x == "" || WellFormed(x)
    ensures UnionText(UnionText(a, b), c) == UnionText(a, UnionText(b, c))
  {
    if a != "" && b != "" && c != "" {
      assert a in {a, b, c} && b in {a, b, c} && c in {a, b, c};
      UnionIsNormal(a, b);
      UnionIsNormal(b, c);
      forall u: string, n: nat
        ensures (Has(UnionText(a, b), u, n) || Has(c, u, n)) <==> (Has(a, u, n) || Has(UnionText(b, c), u, n))
      {
        WellFormedUnionHas(a, b, u, n);
        WellFormedUnionHas(b, c, u, n);
      }
      SameSetSameText(UnionText(a, b), c, a, UnionText(b, c));
    }
  }

  /** Re-reading a union gives the same text back when it is united with itself or with either
      argument. */
  lemma UnionAbsorbs(a: string, b: string)
    requires WellFormed(a) && WellFormed(b)
    ensures UnionText(UnionText(a, b), UnionText(a, b)) == UnionText(a, b)
    ensures UnionText(UnionText(a, b), b) == UnionText(a, b)
    ensures UnionText(a, UnionText(a, b)) == UnionText(a, b)
  {
    UnionIsNormal(a, b);
    var r := UnionText(a, b);
    forall u: string, n: nat ensures Has(r, u, n) <==> Has(a, u, n) || Has(b, u, n) {
      WellFormedUnionHas(a, b, u, n);
    }
    SameSetSameText(r, r, a, b);
    SameSetSameText(r, b, a, b);
    SameSetSameText(a, r, a, b);
  }

  // ---------------------------------------------------------------- the code

  /** The dictionary of the source: the interval texts of each UUID. */
  method GroupByUuid(pieces: seq<string>) returns (res: map<string, seq<string>>)
    ensures res.Keys == Uuids(pieces)
    ensures forall u | u in res :: res[u] == Items(pieces, u)
  {
    res := map[];
    for k := 0 to |pieces|
      invariant res.Keys == Uuids(pieces[..k])
      invariant forall u | u in res :: res[u] == Items(pieces[..k], u)
    {
      var setv := Split(pieces[k], ':');
      var uuid := setv[0];
      NoItemsUnlessNamed(pieces[..k], uuid);
      assert pieces[..k + 1][..k] == pieces[..k];
      assert pieces[..k + 1] == pieces[..k] + [pieces[k]];
      UuidsAppend(pieces[..k], [pieces[k]]);
      assert Uuids([pieces[k]]) == {uuid} by {
        assert UuidOf([pieces[k]][0]) == uuid;
      }
      if uuid in res {
        res := res[uuid := res[uuid] + setv[1..]];
      } else {
        res := res[uuid := setv[1..]];
      }
    }
    assert pieces[..|pieces|] == pieces;
  }

  lemma NoItemsUnlessNamed(pieces: seq<string>, u: string)
    ensures u !in Uuids(pieces) ==> Items(pieces, u) == []
  {
    if u !in Uuids(pieces) {
      NoItems(pieces, u);
    }
  }

  lemma ResortOne(s: seq<Interval>, v: Interval)
    ensures Sort(Sort(s, InOrder) + [v], InOrder) == Sort(s + [v], InOrder)
    ensures Sort<Interval>([], InOrder) == []
  {
    InOrderIsTotal();
    SortSorts(s, InOrder);
    SortPermuted(Sort(s, InOrder) + [v], s + [v], InOrder);
  }

  /** The intervals of one UUID: read one, append it, sort again. */
  method ReadSorted(items: seq<string>) returns (s: seq<Interval>)
    ensures s == Sort(ReadAll(items), InOrder)
  {
    hide Sort, ReadInterval;
    s := [];
    ResortOne([], Interval(0, 0));
    for k := 0 to |items|
      invariant s == Sort(ReadAll(items[..k]), InOrder)
    {
      var v := ReadInterval(items[k]);
      assert ReadAll(items[..k + 1]) == ReadAll(items[..k]) + [v];
      ResortOne(ReadAll(items[..k]), v);
      s := Sort(s + [v], InOrder);
    }
    assert items[..|items|] == items;
  }

  method PrintPiece(uuid: string, s: seq<Interval>) returns (text: string)
    ensures text == UuidText(uuid, s)
  {
    var unionSlice: seq<string> := [];
    for k := 0 to |s|
      invariant unionSlice == IntervalTexts(s[..k])
    {
      if s[k].lo == s[k].hi {
        unionSlice := unionSlice + [Itoa(s[k].lo)];
      } else {
        unionSlice := unionSlice + [Itoa(s[k].lo) + "-" + Itoa(s[k].hi)];
      }
    }
    assert s[..|s|] == s;
    text := uuid + ":" + Join(unionSlice, ':');
  }

  lemma ListMore(order: seq<string>, keys: set<string>, u: string)
    requires Lists(order, keys) && u !in keys
    ensures Lists(order + [u], keys + {u})
  {
  }

  lemma PieceTextsMore(pieces: seq<string>, order: seq<string>, u: string)
    ensures PieceTexts(pieces, order + [u]) == PieceTexts(pieces, order) + [UuidText(u, Normalize(Read(pieces, u)))]
  {
    hide UuidText, Normalize, Read;
  }

  /** The body of the loop over the dictionary. */
  method UnionOf(uuid: string, items: seq<string>) returns (text: string)
    ensures text == UuidText(uuid, Normalize(ReadAll(items)))
  {
    hide UuidText, Sort, Merge;
    var sorted := ReadSorted(items);
    var unionSet := MergeIntervals(sorted);
    text := PrintPiece(uuid, unionSet);
  }

  /** GTIDSetUnion.  The map is visited in an arbitrary order. */
  method GTIDSetUnion(gtidSet1: string, gtidSet2: string) returns (r: string)
    ensures r == UnionText(gtidSet1, gtidSet2)
  {
    if gtidSet1 == "" {
      return gtidSet2;
    }
    if gtidSet2 == "" {
      return gtidSet1;
    }
    hide Pieces, PieceTexts, UuidText, Normalize, ReadAll, Items, Uuids, Lists, UnionText, Sort, Join;
    var pieces := Pieces(gtidSet1, gtidSet2);
    var res := GroupByUuid(pieces);
    var unionGtids: seq<string> := [];
    var todo := res.Keys;
    ghost var order: seq<string> := [];
    NothingListed(pieces);
    assert res.Keys - todo == {};
    while todo != {}
      invariant todo <= res.Keys && Lists(order, res.Keys - todo)
      invariant unionGtids == PieceTexts(pieces, order)
      decreases todo
    {
      var uuid :| uuid in todo;
      var text := UnionOf(uuid, res[uuid]);
      ListMore(order, res.Keys - todo, uuid);
      PieceTextsMore(pieces, order, uuid);
      assert res.Keys - (todo - {uuid}) == res.Keys - todo + {uuid};
      unionGtids := unionGtids + [text];
      order := order + [uuid];
      todo := todo - {uuid};
    }
    assert res.Keys - todo == Uuids(pieces);
    UnionTextIs(gtidSet1, gtidSet2, order);
    r := Join(Sort(unionGtids, NotAfter), ',');
  }

  lemma NothingListed(pieces: seq<string>)
    ensures Lists([], {}) && PieceTexts(pieces, []) == []
  {
  }
}
