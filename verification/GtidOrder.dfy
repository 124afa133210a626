/** SemiSyncGTIDGreaterThan (internal/database/mysql/api.go): replication positions are compared
    as the upper-cased strings "file:%016d", and equal positions by replication lag. */
module GtidOrder {
  import opened Text

  /** model.GTID: the fields that are compared. */
  datatype Mark = Mark(file: string, pos: nat, lag: string)

  function Upper(c: char): char {
    if 'a' <= c <= 'z' then ((c as int - 'a' as int) + 'A' as int) as char else c
  }

  /** strings.ToUpper on ASCII text. */
  function ToUpper(s: string): (r: string)
    ensures |r| == |s| && forall i | 0 <= i < |s| :: r[i] == Upper(s[i])
  {
    seq(|s|, i requires 0 <= i < |s| => Upper(s[i]))
  }

  /** %0<width>d. */
  function Padded(n: nat, width: nat): (s: string)
    ensures IsDigits(s) && |s| >= width
  {
    Pad(Itoa(n), width)
  }

  function Pad(s: string, width: nat): (r: string)
    requires IsDigits(s)
    ensures IsDigits(r) && |r| >= width && |r| >= |s|
    decreases width - |s|
  {
    if |s| >= width then s else Pad("0" + s, width)
  }

  function Key(m: Mark): string {
    ToUpper(m.file + ":" + Padded(m.pos, 16))
  }

  /** Whether `mine` beats `other`. */
  predicate GreaterThan(mine: Mark, other: Mark) {
    if Key(mine) == Key(other) && Atoi(mine.lag).ok && Atoi(other.lag).ok then
      Atoi(mine.lag).value < Atoi(other.lag).value
    else
      Before(Key(other), Key(mine))
  }

  /** The same letter, in whatever case. */
  predicate SameLetter(c: char, d: char) {
    || c == d
    || ('a' <= c <= 'z' && d as int + 32 == c as int)
    || ('a' <= d <= 'z' && c as int + 32 == d as int)
  }

  /** At one position, file names are told apart exactly by more than letter case. */
  lemma CaseIsIgnored(a: Mark, b: Mark)
    requires a.pos == b.pos
    ensures Key(a) == Key(b) <==>
              |a.file| == |b.file| && forall i | 0 <= i < |a.file| :: SameLetter(a.file[i], b.file[i])
  {
    var p := ":" + Padded(a.pos, 16);
    assert a.file + ":" + Padded(a.pos, 16) == a.file + p && b.file + ":" + Padded(b.pos, 16) == b.file + p;
    assert |Key(a)| == |a.file| + |p| && |Key(b)| == |b.file| + |p|;
    if |a.file| == |b.file| {
      forall i | 0 <= i < |a.file| ensures Key(a)[i] == Key(b)[i] <==> SameLetter(a.file[i], b.file[i]) {
        assert Key(a)[i] == Upper(a.file[i]) && Key(b)[i] == Upper(b.file[i]);
      }
      forall i | |a.file| <= i < |Key(a)| ensures Key(a)[i] == Key(b)[i] {
        assert (a.file + p)[i] == p[i - |a.file|] && (b.file + p)[i] == p[i - |a.file|];
      }
    }
  }

  // ---------------------------------------------------------------- a strict partial order

  lemma GreaterIrreflexive(m: Mark)
    ensures !GreaterThan(m, m)
  {
    BeforeTrichotomy(Key(m), Key(m));
  }

  lemma GreaterTransitive(a: Mark, b: Mark, c: Mark)
    requires GreaterThan(a, b) && GreaterThan(b, c)
    ensures GreaterThan(a, c)
  {
    hide Key, Before, Atoi;
    BeforeTrichotomy(Key(a), Key(b));
    BeforeTrichotomy(Key(b), Key(c));
    BeforeTrichotomy(Key(a), Key(c));
    if Before(Key(b), Key(a)) && Before(Key(c), Key(b)) {
      BeforeTransitive(Key(c), Key(b), Key(a));
    }
  }

  /** Among any nodes some node is beaten by none, so a stable election can always choose it. */
  lemma {:induction false} SomeNodeUnbeaten(marks: map<nat, Mark>) returns (best: nat)
    requires marks.Keys != {}
    ensures best in marks
    ensures forall i | i in marks :: !GreaterThan(marks[i], marks[best])
    decreases |marks.Keys|
  {
    hide GreaterThan;
    var i :| i in marks;
    var rest := marks - {i};
    assert rest.Keys == marks.Keys - {i};
    GreaterIrreflexive(marks[i]);
    if rest.Keys == {} {
      assert forall j | j in marks :: j in rest.Keys || j == i;
      best := i;
    } else {
      best := SomeNodeUnbeaten(rest);
      assert forall j | j in marks :: j == i || (j in rest.Keys && rest[j] == marks[j]);
      if GreaterThan(marks[i], marks[best]) {
        forall j | j in marks ensures !GreaterThan(marks[j], marks[i]) {
          if GreaterThan(marks[j], marks[i]) {
            GreaterTransitive(marks[j], marks[i], marks[best]);
          }
        }
        best := i;
      }
    }
  }

  /** Neither beats the other. */
  predicate Ties(a: Mark, b: Mark) {
    !GreaterThan(a, b) && !GreaterThan(b, a)
  }

  /** Ties do not chain, so the order is no ranking: a tie of a with b and of b with c says nothing
      of a and c exactly when all are at one position, b's lag does not parse, and those of a and c
      do and differ. */
  lemma TiesChainUnless(a: Mark, b: Mark, c: Mark)
    requires Ties(a, b) && Ties(b, c)
    ensures !Ties(a, c) <==>
              && Key(a) == Key(b) == Key(c)
              && !Atoi(b.lag).ok && Atoi(a.lag).ok && Atoi(c.lag).ok && Atoi(a.lag).value != Atoi(c.lag).value
  {
    hide Key, Before, Atoi;
    BeforeTrichotomy(Key(a), Key(b));
    BeforeTrichotomy(Key(b), Key(c));
    BeforeTrichotomy(Key(a), Key(c));
  }

  /** Three nodes at one position, the second without a lag. */
  lemma TiesNeedNotChain()
    ensures var a, b, c := Mark("bin.1", 4, "1"), Mark("bin.1", 4, ""), Mark("bin.1", 4, "2");
            Ties(a, b) && Ties(b, c) && !Ties(a, c)
  {
    var a, b, c := Mark("bin.1", 4, "1"), Mark("bin.1", 4, ""), Mark("bin.1", 4, "2");
    assert Key(a) == Key(b) == Key(c);
    BeforeTrichotomy(Key(a), Key(a));
    assert Value("1") == 1 && Value("2") == 2 by {
      assert "1"[..0] == "" && "2"[..0] == "";
    }
    assert !Atoi("").ok;
    TiesChainUnless(a, b, c);
  }

  // ---------------------------------------------------------------- digits

  function Pow10(k: nat): (p: nat)
    ensures p > 0
  {
    if k == 0 then 1 else 10 * Pow10(k - 1)
  }

  lemma {:induction false} PadValue(s: string, width: nat)
    requires IsDigits(s)
    ensures Value(Pad(s, width)) == Value(s)
    ensures |Pad(s, width)| == if |s| >= width then |s| else width
    decreases width - |s|
  {
    if |s| < width {
      LeadingZero(s);
      PadValue("0" + s, width);
    }
  }

  lemma {:induction false} LeadingZero(s: string)
    requires s == "" || IsDigits(s)
    ensures Value("0" + s) == Value(s)
  {
    if s == "" {
      assert "0"[..0] == "";
      assert Value("0") == 10 * Value("0"[..0]) + ('0' - '0') as int;
      assert "0" + s == "0";
    } else {
      var k := |s| - 1;
      LeadingZero(s[..k]);
      assert ("0" + s)[..k + 1] == "0" + s[..k];
    }
  }

  lemma PaddedValue(n: nat, width: nat)
    ensures Value(Padded(n, width)) == n
  {
    ValueItoa(n);
    PadValue(Itoa(n), width);
  }

  /** Leading digits are the quotient by a power of ten. */
  lemma {:induction false} PrefixValue(s: string, k: nat)
    requires IsDigits(s) && k <= |s|
    ensures Value(s[..k]) == Value(s) / Pow10(|s| - k)
    decreases |s|
  {
    if k < |s| {
      var t, d := s[..|s| - 1], (s[|s| - 1] - '0') as int;
      assert s[..k] == t[..k];
      if t == "" {
        assert s[..k] == "" && Value(s) == d < 10;
        assert Pow10(1) == 10 * Pow10(0);
      } else {
        PrefixValue(t, k);
        QuotientStep(Value(t), d, Pow10(|t| - k));
      }
    } else {
      assert s[..k] == s;
    }
  }

  lemma QuotientStep(v: nat, d: nat, p: nat)
    requires d < 10 && p > 0
    ensures (10 * v + d) / (10 * p) == v / p
  {
    var q, r := v / p, v % p;
    assert v == q * p + r;
    assert 10 * v + d == q * (10 * p) + (10 * r + d);
    assert 0 <= 10 * r + d < 10 * p;
    QuotientIs(10 * v + d, 10 * p, q, 10 * r + d);
  }

  lemma QuotientIs(n: nat, p: nat, q: nat, r: nat)
    requires p > 0 && n == q * p + r && r < p
    ensures n / p == q
  {
    var e: int := n / p - q;
    assert n == (n / p) * p + n % p;
    assert e * p == r - n % p;
    assert e >= 1 ==> e * p >= p;
    assert e <= -1 ==> e * p + p <= 0;
  }

  /** Numbers of equal width are ordered as their digits are. */
  lemma {:induction false} DigitsOrder(a: string, b: string)
    requires |a| == |b|
    requires a == "" || (IsDigits(a) && IsDigits(b))
    ensures Before(a, b) <==> Value(a) < Value(b)
    ensures a == b <==> Value(a) == Value(b)
    decreases |a|
  {
    if a == "" {
    } else {
      var k := |a| - 1;
      DigitsOrder(a[..k], b[..k]);
      BeforeAppend(a[..k], a[k..], b[..k], b[k..]);
      assert a[..k] + a[k..] == a && b[..k] + b[k..] == b;
      assert a[k..] == [a[k]] && b[k..] == [b[k]];
      assert Before([a[k]], [b[k]]) <==> a[k] < b[k];
      assert [a[k]] == [b[k]] <==> a[k] == b[k];
    }
  }

  lemma {:induction false} BeforeAppend(a: string, x: string, b: string, y: string)
    requires |a| == |b|
    ensures Before(a + x, b + y) <==> Before(a, b) || (a == b && Before(x, y))
  {
    if a == "" {
      assert a + x == x && b + y == y;
    } else {
      BeforeAppend(a[1..], x, b[1..], y);
      assert (a + x)[1..] == a[1..] + x && (b + y)[1..] == b[1..] + y;
      assert a == [a[0]] + a[1..] && b == [b[0]] + b[1..];
    }
  }

  lemma BeforeEmpty(x: string)
    ensures !Before(x, "") && (Before("", x) <==> x != "")
  {
  }

  // ---------------------------------------------------------------- positions of equal width

  lemma KeyParts(m: Mark)
    ensures Key(m) == ToUpper(m.file) + ":" + Padded(m.pos, 16)
  {
    var d := Padded(m.pos, 16);
    assert forall i | 0 <= i < |d| :: Upper(d[i]) == d[i];
    assert Upper(':') == ':';
  }

  /** The string order of the keys is the order of (FILE, pos) for file names of equal length and
      positions that print with equally many digits. */
  lemma KeyIsLogOrder(x: Mark, y: Mark)
    requires |x.file| == |y.file|
    requires |Padded(x.pos, 16)| == |Padded(y.pos, 16)|
    ensures Before(Key(x), Key(y)) <==>
              Before(ToUpper(x.file), ToUpper(y.file)) || (ToUpper(x.file) == ToUpper(y.file) && x.pos < y.pos)
    ensures Key(x) == Key(y) <==> ToUpper(x.file) == ToUpper(y.file) && x.pos == y.pos
  {
    hide ToUpper, Padded, Before, Key;
    KeyParts(x);
    KeyParts(y);
    var f, g, d, e := ToUpper(x.file), ToUpper(y.file), Padded(x.pos, 16), Padded(y.pos, 16);
    assert f + ":" + d == f + (":" + d) && g + ":" + e == g + (":" + e);
    BeforeAppend(f, ":" + d, g, ":" + e);
    BeforeAppend(":", d, ":", e);
    BeforeTrichotomy(":", ":");
    DigitsOrder(d, e);
    PaddedValue(x.pos, 16);
    PaddedValue(y.pos, 16);
    EqualParts(f, d, g, e);
  }

  lemma EqualParts(f: string, d: string, g: string, e: string)
    requires |f| == |g| && |d| == |e|
    ensures f + ":" + d == g + ":" + e <==> f == g && d == e
  {
    if f + ":" + d == g + ":" + e {
      assert f == (f + ":" + d)[..|f|] && g == (g + ":" + e)[..|f|];
      assert d == (f + ":" + d)[|f| + 1..] && e == (g + ":" + e)[|f| + 1..];
    }
  }

  lemma {:induction false} ItoaWidth(n: nat, k: nat)
    requires k > 0
    ensures |Itoa(n)| <= k <==> n < Pow10(k)
  {
    if n < 10 {
      PowAtLeast(k);
    } else if k == 1 {
      assert |Itoa(n / 10)| >= 1;
      assert Pow10(1) == 10 * Pow10(0) == 10;
    } else {
      ItoaWidth(n / 10, k - 1);
    }
  }

  lemma {:induction false} PowAtLeast(k: nat)
    requires k > 0
    ensures Pow10(k) >= 10
  {
    if k == 1 {
      assert Pow10(1) == 10 * Pow10(0);
    } else {
      PowAtLeast(k - 1);
    }
  }

  /** All positions below 10^16 print with sixteen digits. */
  lemma SmallPositions(p: nat)
    ensures |Padded(p, 16)| == 16 <==> p < 10_000_000_000_000_000
  {
    PadValue(Itoa(p), 16);
    ItoaWidth(p, 16);
    assert Pow10(16) == 10_000_000_000_000_000 by {
      assert Pow10(4) == 10 * Pow10(3) && Pow10(3) == 10 * Pow10(2) && Pow10(2) == 10 * Pow10(1)
          && Pow10(1) == 10 * Pow10(0);
      assert Pow10(8) == 10 * Pow10(7) && Pow10(7) == 10 * Pow10(6) && Pow10(6) == 10 * Pow10(5)
          && Pow10(5) == 10 * Pow10(4);
      assert Pow10(12) == 10 * Pow10(11) && Pow10(11) == 10 * Pow10(10) && Pow10(10) == 10 * Pow10(9)
          && Pow10(9) == 10 * Pow10(8);
      assert Pow10(16) == 10 * Pow10(15) && Pow10(15) == 10 * Pow10(14) && Pow10(14) == 10 * Pow10(13)
          && Pow10(13) == 10 * Pow10(12);
    }
  }

  /** A node with the later position in the log wins, whatever the lags. */
  lemma GreaterIsLaterInLog(x: Mark, y: Mark)
    requires |x.file| == |y.file|
    requires x.pos < 10_000_000_000_000_000 && y.pos < 10_000_000_000_000_000
    ensures GreaterThan(y, x) <==>
              || Before(ToUpper(x.file), ToUpper(y.file))
              || (ToUpper(x.file) == ToUpper(y.file) && x.pos < y.pos)
              || (ToUpper(x.file) == ToUpper(y.file) && x.pos == y.pos
                  && Atoi(x.lag).ok && Atoi(y.lag).ok && Atoi(y.lag).value < Atoi(x.lag).value)
  {
    hide ToUpper, Padded, Before, Key, Atoi;
    SmallPositions(x.pos);
    SmallPositions(y.pos);
    KeyIsLogOrder(x, y);
    BeforeTrichotomy(Key(x), Key(y));
    BeforeTrichotomy(ToUpper(x.file), ToUpper(y.file));
  }

  // ---------------------------------------------------------------- log files in sequence

  /** The binary logs of one base name: base.000001, base.000002, ... */
  function LogFile(base: string, n: nat): string {
    base + "." + Padded(n, 6)
  }

  function Place(base: string, n: nat, pos: nat, lag: string): Mark {
    Mark(LogFile(base, n), pos, lag)
  }

  /** Where string order and log order agree on numbers n < m padded to a width: the widths are
      equal, or the smaller is covered by the leading digits of the larger. */
  predicate WidthsAgree(n: nat, m: nat, width: nat, strict: bool) {
    var a, b := |Padded(n, width)|, |Padded(m, width)|;
    a == b || (a < b && (n < m / Pow10(b - a) || (!strict && n == m / Pow10(b - a))))
  }

  lemma NarrowOrder(a: string, x: string, b: string, y: string)
    requires IsDigits(a) && IsDigits(b) && |a| < |b|
    ensures Before(a + x, b + y) <==>
              || Value(a) < Value(b) / Pow10(|b| - |a|)
              || (Value(a) == Value(b) / Pow10(|b| - |a|) && Before(x, b[|a|..] + y))
  {
    assert b + y == b[..|a|] + (b[|a|..] + y);
    BeforeAppend(a, x, b[..|a|], b[|a|..] + y);
    DigitsOrder(a, b[..|a|]);
    PrefixValue(b, |a|);
  }

  /** A later position in one file of the log is recognised exactly when the widths agree. */
  lemma LaterPosition(p: nat, q: nat)
    requires p < q
    ensures Before(Padded(p, 16), Padded(q, 16)) <==> WidthsAgree(p, q, 16, false)
  {
    hide Padded, Before, Pow10;
    var d, e := Padded(p, 16), Padded(q, 16);
    PaddedValue(p, 16);
    PaddedValue(q, 16);
    Widths(p, q, 16);
    if |d| == |e| {
      DigitsOrder(d, e);
    } else {
      assert d + "" == d && e + "" == e;
      NarrowOrder(d, "", e, "");
      BeforeEmpty(e[|d|..] + "");
      assert |e[|d|..] + ""| > 0;
    }
  }

  lemma Widths(n: nat, m: nat, width: nat)
    requires n <= m
    ensures |Padded(n, width)| <= |Padded(m, width)|
  {
    PadValue(Itoa(n), width);
    PadValue(Itoa(m), width);
    ItoaWidth(n, |Itoa(m)|);
    ItoaWidth(m, |Itoa(m)|);
  }

  /** A later file is recognised exactly when the widths agree: the colon after the shorter name
      sorts above every digit. */
  lemma LaterFile(n: nat, m: nat, x: string, y: string)
    requires n < m
    ensures Before(Padded(n, 6) + (":" + x), Padded(m, 6) + (":" + y)) <==> WidthsAgree(n, m, 6, true)
  {
    hide Padded, Pow10;
    var d, e := Padded(n, 6), Padded(m, 6);
    PaddedValue(n, 6);
    PaddedValue(m, 6);
    Widths(n, m, 6);
    if |d| == |e| {
      DigitsOrder(d, e);
      BeforeAppend(d, ":" + x, e, ":" + y);
    } else {
      NarrowOrder(d, ":" + x, e, ":" + y);
      var tail := e[|d|..] + (":" + y);
      assert IsDigit(e[|d|]) && tail[0] == e[|d|];
      assert (":" + x)[0] == ':';
      assert !Before(":" + x, tail);
    }
  }

  lemma PlaceKey(base: string, n: nat, pos: nat, lag: string)
    ensures Key(Place(base, n, pos, lag)) == ToUpper(base) + ("." + (Padded(n, 6) + (":" + Padded(pos, 16))))
  {
    hide Padded, Key;
    var d, e, m := Padded(n, 6), Padded(pos, 16), Place(base, n, pos, lag);
    KeyParts(m);
    assert forall i | 0 <= i < |d| :: Upper(d[i]) == d[i];
    assert Upper('.') == '.';
    assert ToUpper(m.file) == ToUpper(base) + "." + d;
  }

  /** The exact condition under which the comparison sees that (n, p) comes before (m, q) in the
      logs of one server. */
  lemma ComparisonFollowsLog(base: string, n: nat, p: nat, m: nat, q: nat, l1: string, l2: string)
    requires n < m || (n == m && p < q)
    ensures GreaterThan(Place(base, m, q, l2), Place(base, n, p, l1)) <==>
              if n < m then WidthsAgree(n, m, 6, true) else WidthsAgree(p, q, 16, false)
  {
    hide Padded, Before, Key, Atoi, WidthsAgree, ToUpper, Place;
    PlaceKey(base, n, p, l1);
    PlaceKey(base, m, q, l2);
    var u, d, e, x, y := ToUpper(base), Padded(n, 6), Padded(m, 6), Padded(p, 16), Padded(q, 16);
    BeforeAppend(u, "." + (d + (":" + x)), u, "." + (e + (":" + y)));
    BeforeAppend(".", d + (":" + x), ".", e + (":" + y));
    BeforeTrichotomy(u, u);
    BeforeTrichotomy(".", ".");
    if n < m {
      LaterFile(n, m, x, y);
      DifferentPlaces(n, x, m, y, u);
    } else {
      BeforeAppend(d, ":" + x, e, ":" + y);
      BeforeAppend(":", x, ":", y);
      BeforeTrichotomy(d, d);
      BeforeTrichotomy(":", ":");
      LaterPosition(p, q);
      PaddedValue(p, 16);
      PaddedValue(q, 16);
      SameHead(u + ".", d + ":", x, y);
      assert u + ("." + (d + (":" + x))) == (u + ".") + ((d + ":") + x);
      assert u + ("." + (d + (":" + y))) == (u + ".") + ((d + ":") + y);
    }
  }

  lemma SameHead(a: string, b: string, x: string, y: string)
    requires x != y
    ensures a + (b + x) != a + (b + y)
  {
    assert x == (a + (b + x))[|a| + |b|..] && y == (a + (b + y))[|a| + |b|..];
  }

  lemma DifferentPlaces(n: nat, x: string, m: nat, y: string, u: string)
    requires n < m
    ensures u + ("." + (Padded(n, 6) + (":" + x))) != u + ("." + (Padded(m, 6) + (":" + y)))
  {
    hide Padded;
    var d, e := Padded(n, 6), Padded(m, 6);
    var s, t := u + ("." + (d + (":" + x))), u + ("." + (e + (":" + y)));
    PaddedValue(n, 6);
    PaddedValue(m, 6);
    Widths(n, m, 6);
    var k := |u| + 1;
    assert s[k..k + |d|] == d && t[k..k + |e|] == e;
    assert s[k + |d|] == ':';
    if |d| < |e| {
      assert t[k + |d|] == e[|d|] && IsDigit(e[|d|]);
    }
  }

  /** File number 1000000 is wider than 999999, and the node that has rolled over to it loses. */
  lemma RolloverMisordered(base: string, p: nat, q: nat, l1: string, l2: string)
    ensures !GreaterThan(Place(base, 1_000_000, q, l2), Place(base, 999_999, p, l1))
  {
    hide Before, Key, Atoi, ToUpper, Place, GreaterThan;
    ComparisonFollowsLog(base, 999_999, p, 1_000_000, q, l1, l2);
    SixDigits();
    PadValue(Itoa(999_999), 6);
    PadValue(Itoa(1_000_000), 6);
    PowAtLeast(1);
    QuotientBelow(1_000_000, Pow10(|Padded(1_000_000, 6)| - |Padded(999_999, 6)|));
  }

  lemma SixDigits()
    ensures |Itoa(999_999)| <= 6 && |Itoa(1_000_000)| > 6
  {
    ItoaWidth(999_999, 6);
    ItoaWidth(1_000_000, 6);
    assert Pow10(3) == 1000 by { assert Pow10(3) == 10 * Pow10(2) && Pow10(2) == 10 * Pow10(1)
        && Pow10(1) == 10 * Pow10(0); }
    assert Pow10(6) == 10 * Pow10(5) && Pow10(5) == 10 * Pow10(4) && Pow10(4) == 10 * Pow10(3);
  }

  lemma QuotientBelow(n: nat, p: nat)
    requires p >= 2 && n <= 1_000_000
    ensures n / p <= 500_000
  {
    var q := n / p;
    assert q * p <= n;
    assert q * p >= q * 2;
  }
}
