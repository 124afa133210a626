/** The parts of Go's strings and strconv packages that the GTID code uses, with the laws that
    relate cutting to joining and printing to reading. */
module Text {

  const MAX_INT64: nat := 0x7fff_ffff_ffff_ffff
  const MIN_INT64: int := -0x8000_0000_0000_0000

  // ---------------------------------------------------------------- strings.Split, strings.Join

  /** strings.Split with a one-character separator. */
  function Split(s: string, c: char): (parts: seq<string>)
    ensures |parts| >= 1
    ensures forall p | p in parts :: c !in p
  {
    if s == "" then [""]
    else
      var rest := Split(s[1..], c);
      if s[0] == c then [""] + rest else [[s[0]] + rest[0]] + rest[1..]
  }

  /** strings.Join with a one-character separator. */
  function Join(parts: seq<string>, c: char): string {
    if parts == [] then ""
    else if |parts| == 1 then parts[0]
    else parts[0] + [c] + Join(parts[1..], c)
  }

  lemma {:induction false} SplitNothing(p: string, c: char)
    requires c !in p
    ensures Split(p, c) == [p]
  {
    if p == "" {
    } else {
      SplitNothing(p[1..], c);
      assert [p[0]] + p[1..] == p;
    }
  }

  lemma {:induction false} SplitFirst(p: string, c: char, s: string)
    requires c !in p
    ensures Split(p + [c] + s, c) == [p] + Split(s, c)
  {
    if p == "" {
      assert (p + [c] + s)[1..] == s;
    } else {
      SplitFirst(p[1..], c, s);
      assert (p + [c] + s)[1..] == p[1..] + [c] + s;
      assert [p[0]] + p[1..] == p;
    }
  }

  /** Cutting undoes joining. */
  lemma {:induction false} SplitJoin(parts: seq<string>, c: char)
    requires parts != [] && forall p | p in parts :: c !in p
    ensures Split(Join(parts, c), c) == parts
  {
    if |parts| == 1 {
      SplitNothing(parts[0], c);
    } else {
      SplitJoin(parts[1..], c);
      SplitFirst(parts[0], c, Join(parts[1..], c));
    }
  }

  lemma {:induction false} JoinAvoids(parts: seq<string>, c: char, d: char)
    requires c != d && forall p | p in parts :: d !in p
    ensures d !in Join(parts, c)
  {
    if |parts| > 1 {
      JoinAvoids(parts[1..], c, d);
    }
  }

  // ---------------------------------------------------------------- strconv.Itoa, strconv.Atoi

  predicate IsDigit(c: char) {
    '0' <= c <= '9'
  }

  predicate IsDigits(s: string) {
    s != "" && forall i | 0 <= i < |s| :: IsDigit(s[i])
  }

  function DigitOf(d: nat): char
    requires d < 10
  {
    '0' + d as char
  }

  function Itoa(n: nat): (s: string)
    ensures IsDigits(s)
  {
    if n < 10 then [DigitOf(n)] else Itoa(n / 10) + [DigitOf(n % 10)]
  }

  function Value(s: string): nat
    requires s == "" || IsDigits(s)
  {
    if s == "" then 0 else 10 * Value(s[..|s| - 1]) + (s[|s| - 1] - '0') as int
  }

  /** What strconv.Atoi returns: a value even when there is an error. */
  datatype Parsed = Parsed(value: int, ok: bool)

  function Atoi(s: string): Parsed {
    var negative := s != "" && s[0] == '-';
    var digits := if s != "" && (s[0] == '-' || s[0] == '+') then s[1..] else s;
    if !IsDigits(digits) then Parsed(0, false)
    else if negative then
      if Value(digits) <= MAX_INT64 + 1 then Parsed(-(Value(digits) as int), true) else Parsed(MIN_INT64, false)
    else
      if Value(digits) <= MAX_INT64 then Parsed(Value(digits), true) else Parsed(MAX_INT64, false)
  }

  lemma {:induction false} ValueItoa(n: nat)
    ensures Value(Itoa(n)) == n
  {
    if n >= 10 {
      ValueItoa(n / 10);
      assert Itoa(n)[..|Itoa(n)| - 1] == Itoa(n / 10);
    }
  }

  /** Reading undoes printing, for the numbers a Go int can hold. */
  lemma AtoiItoa(n: nat)
    requires n <= MAX_INT64
    ensures Atoi(Itoa(n)) == Parsed(n, true)
  {
    ValueItoa(n);
    assert IsDigit(Itoa(n)[0]);
  }

  /** Exactly digits with at most one sign are a number; beyond the range of a Go int the nearest
      end is returned along with the error, and nothing else has a value. */
  lemma AtoiExactly(s: string)
    ensures IsDigits(s) ==>
              Atoi(s) == if Value(s) <= MAX_INT64 then Parsed(Value(s), true) else Parsed(MAX_INT64, false)
    ensures IsDigits(s) ==> Atoi("+" + s) == Atoi(s)
    ensures IsDigits(s) ==>
              Atoi("-" + s) == if Value(s) <= MAX_INT64 + 1 then Parsed(-(Value(s) as int), true)
                               else Parsed(MIN_INT64, false)
    ensures Atoi(s) != Parsed(0, false) ==> IsDigits(s) || (s != "" && s[0] in {'+', '-'} && IsDigits(s[1..]))
  {
    assert ("+" + s)[1..] == s && ("-" + s)[1..] == s;
  }

  lemma ItoaAvoids(n: nat, c: char)
    requires !IsDigit(c)
    ensures c !in Itoa(n)
  {
  }

  /** strconv.Itoa and %d for a signed number. */
  function IntText(n: int): string {
    if n < 0 then "-" + Itoa(-n) else Itoa(n)
  }

  /** Reading undoes printing, for every number a Go int can hold. */
  lemma AtoiIntText(n: int)
    requires MIN_INT64 <= n <= MAX_INT64
    ensures Atoi(IntText(n)) == Parsed(n, true)
  {
    hide Itoa;
    if n < 0 {
      ValueItoa(-n);
      assert ("-" + Itoa(-n))[1..] == Itoa(-n);
    } else {
      AtoiItoa(n);
    }
  }

  // ---------------------------------------------------------------- strings.TrimSpace

  /** The space, and the five control characters from tab to carriage return. */
  predicate IsSpace(c: char) {
    c == ' ' || '\t' <= c <= '\r'
  }

  predicate AllSpace(s: string) {
    forall c | c in s :: IsSpace(c)
  }

  /** strings.TrimSpace on ASCII text. */
  function TrimSpace(s: string): string {
    if s != "" && IsSpace(s[0]) then TrimSpace(s[1..])
    else if s != "" && IsSpace(s[|s| - 1]) then TrimSpace(s[..|s| - 1])
    else s
  }

  /** What is trimmed is white space at both ends, and all of it. */
  lemma {:induction false} TrimMeans(s: string) returns (p: string, q: string)
    ensures s == p + TrimSpace(s) + q && AllSpace(p) && AllSpace(q)
    ensures var r := TrimSpace(s); r != "" ==> !IsSpace(r[0]) && !IsSpace(r[|r| - 1])
  {
    hide IsSpace;
    if s != "" && IsSpace(s[0]) {
      p, q := TrimMeans(s[1..]);
      assert s == [s[0]] + s[1..];
      p := [s[0]] + p;
    } else if s != "" && IsSpace(s[|s| - 1]) {
      p, q := TrimMeans(s[..|s| - 1]);
      assert s == s[..|s| - 1] + [s[|s| - 1]];
      q := q + [s[|s| - 1]];
    } else {
      p, q := "", "";
    }
  }

  // ---------------------------------------------------------------- strings.Contains

  predicate Contains(s: string, part: string) {
    part <= s || (s != "" && Contains(s[1..], part))
  }

  predicate At(s: string, i: int, part: string) {
    0 <= i && i + |part| <= |s| && s[i..i + |part|] == part
  }

  lemma AtTail(s: string, i: nat, part: string)
    requires s != ""
    ensures At(s[1..], i, part) <==> At(s, i + 1, part)
  {
    if i + |part| < |s| {
      assert s[1..][i..i + |part|] == s[i + 1..i + 1 + |part|];
    }
  }

  lemma AtZero(s: string, part: string)
    ensures At(s, 0, part) <==> part <= s
  {
  }

  lemma AtRange(s: string, i: int, part: string)
    ensures At(s, i, part) ==> i >= 0 && (s == "" ==> i == 0)
  {
  }

  lemma {:induction false} ContainsMeans(s: string, part: string)
    ensures Contains(s, part) <==> exists i :: At(s, i, part)
  {
    hide At;
    AtZero(s, part);
    if part <= s {
    } else if s == "" {
      forall i ensures !At(s, i, part) {
        AtRange(s, i, part);
      }
    } else {
      ContainsMeans(s[1..], part);
      if i :| At(s[1..], i, part) {
        AtRange(s[1..], i, part);
        AtTail(s, i, part);
      }
      if i :| At(s, i, part) {
        AtRange(s, i, part);
        AtTail(s, i - 1, part);
      }
    }
  }

  // ---------------------------------------------------------------- string order

  /** strings.Compare(a, b) < 0. */
  predicate Before(a: string, b: string) {
    if b == "" then false
    else if a == "" then true
    else if a[0] != b[0] then a[0] < b[0]
    else Before(a[1..], b[1..])
  }

  predicate NotAfter(a: string, b: string) {
    !Before(b, a)
  }

  lemma {:induction false} BeforeTrichotomy(a: string, b: string)
    ensures a == b <==> !Before(a, b) && !Before(b, a)
    ensures !(Before(a, b) && Before(b, a))
  {
    if a != "" && b != "" && a[0] == b[0] {
      BeforeTrichotomy(a[1..], b[1..]);
      assert a == [a[0]] + a[1..] && b == [b[0]] + b[1..];
    }
  }

  lemma {:induction false} BeforeTransitive(a: string, b: string, c: string)
    requires Before(a, b) && Before(b, c)
    ensures Before(a, c)
  {
    if a != "" && a[0] == b[0] == c[0] {
      BeforeTransitive(a[1..], b[1..], c[1..]);
    }
  }
}
