/**
 * The parts of Go's strings and strconv packages that the modelled code calls.
 * Go strings are byte strings; here a string is a seq<char> and every character
 * stands for one byte (or one rune, for the whitespace table of TrimSpace).
 */
module Text {
  import opened Wrappers

  const MinInt64: int := -0x8000_0000_0000_0000
  const MaxInt64: int := 0x7FFF_FFFF_FFFF_FFFF

  predicate InInt64(x: int) { MinInt64 <= x <= MaxInt64 }

  const TwoTo64: int := 0x1_0000_0000_0000_0000

  /** Go's int64 addition: the exact sum, wrapped once around 2^64 when it leaves the range. */
  function AddInt64(a: int, b: int): (r: int)
    requires InInt64(a) && InInt64(b)
    ensures InInt64(r)
    ensures r == a + b || r == a + b - TwoTo64 || r == a + b + TwoTo64
    ensures InInt64(a + b) ==> r == a + b
  {
    var s := a + b;
    if s > MaxInt64 then s - TwoTo64 else if s < MinInt64 then s + TwoTo64 else s
  }

  /** Go's unary minus on int64: the negation of the minimum wraps to the minimum. */
  function NegInt64(d: int): (r: int)
    requires InInt64(d)
    ensures InInt64(r)
    ensures r == 0 - d || r == 0 - d - TwoTo64
    ensures d != MinInt64 ==> r == 0 - d
  {
    if d == MinInt64 then MinInt64 else 0 - d
  }

  /** A 64-bit two's-complement result: the exact value reduced into range modulo 2^64. */
  function WrapInt64(x: int): (r: int)
    ensures InInt64(r)
    ensures InInt64(x) ==> r == x
    ensures (r - x) % TwoTo64 == 0
  {
    if InInt64(x) then x
    else
      var q := (x - MinInt64) / TwoTo64;
      var r := (x - MinInt64) % TwoTo64 + MinInt64;
      assert r - x == (-q) * TwoTo64;
      MultipleMod(-q);
      r
  }

  lemma MultipleMod(q: int)
    ensures (q * TwoTo64) % TwoTo64 == 0
  {
  }

  /** The wrapped value is the only int64 congruent to x modulo 2^64. */
  lemma {:induction false} WrapUnique(x: int, r: int)
    requires InInt64(r) && (r - x) % TwoTo64 == 0
    ensures r == WrapInt64(x)
  {
    var w := WrapInt64(x);
    var d := r - w;
    assert -TwoTo64 < d < TwoTo64;
    var a, b := (r - x) / TwoTo64, (w - x) / TwoTo64;
    assert r - x == a * TwoTo64 && w - x == b * TwoTo64;
    assert d == (a - b) * TwoTo64;
  }

  /** Adding d and then Go's negation of d gives x back, whatever wrapped on the way. */
  lemma {:induction false} AddThenNegate(x: int, d: int)
    requires InInt64(x) && InInt64(d)
    ensures AddInt64(AddInt64(x, d), NegInt64(d)) == x
  {
    var a := AddInt64(x, d);
    var b := NegInt64(d);
    var c := AddInt64(a, b);
    assert c - x == 0 || c - x == TwoTo64 || c - x == 0 - TwoTo64 || c - x == 2 * TwoTo64 || c - x == 0 - 2 * TwoTo64 || c - x == 3 * TwoTo64 || c - x == 0 - 3 * TwoTo64;
  }

  /** strings.TrimRight(s, string(c)): drop every trailing c. */
  function TrimRightChar(s: string, c: char): (r: string)
    ensures r <= s
    ensures r == [] || r[|r| - 1] != c
    ensures forall i :: |r| <= i < |s| ==> s[i] == c
  {
    if s == [] || s[|s| - 1] != c then s else TrimRightChar(s[..|s| - 1], c)
  }

  /** strings.IndexByte(s, c), None for -1. */
  function IndexOf(s: string, c: char): (r: Option<nat>)
    ensures r.Some? ==> r.value < |s| && s[r.value] == c && forall j :: 0 <= j < r.value ==> s[j] != c
    ensures r.None? ==> forall j :: 0 <= j < |s| ==> s[j] != c
  {
    if s == [] then None
    else if s[0] == c then Some(0)
    else match IndexOf(s[1..], c)
      case None => None
      case Some(k) => Some(k + 1)
  }

  /** strings.LastIndex(s, string(c)), None for -1. */
  function LastIndexOf(s: string, c: char): (r: Option<nat>)
    ensures r.Some? ==> r.value < |s| && s[r.value] == c && forall j :: r.value < j < |s| ==> s[j] != c
    ensures r.None? ==> forall j :: 0 <= j < |s| ==> s[j] != c
  {
    if s == [] then None
    else if s[|s| - 1] == c then Some(|s| - 1)
    else LastIndexOf(s[..|s| - 1], c)
  }

  /** sub occurs in s at position i. */
  predicate OccursAt(s: string, sub: string, i: int)
  {
    0 <= i && i + |sub| <= |s| && s[i..i + |sub|] == sub
  }

  /** strings.Contains(s, sub); every string contains "". */
  function Contains(s: string, sub: string): (b: bool)
    ensures b <==> exists i :: OccursAt(s, sub, i)
  {
    if sub <= s then
      assert OccursAt(s, sub, 0);
      true
    else if s == [] then
      false
    else
      OccursShift(s, sub);
      Contains(s[1..], sub)
  }

  /** Past the first position, sub occurs in s exactly where it occurs in s[1..], one further on. */
  lemma OccursShift(s: string, sub: string)
    requires s != [] && !(sub <= s)
    ensures (exists i :: OccursAt(s, sub, i)) <==> (exists i :: OccursAt(s[1..], sub, i))
  {
    if i :| OccursAt(s, sub, i) {
      assert i != 0;
      assert s[1..][i - 1..i - 1 + |sub|] == s[i..i + |sub|];
      assert OccursAt(s[1..], sub, i - 1);
    }
    if i :| OccursAt(s[1..], sub, i) {
      assert s[i + 1..i + 1 + |sub|] == s[1..][i..i + |sub|];
      assert OccursAt(s, sub, i + 1);
    }
  }

  /** The white space Go's strings.TrimSpace removes (unicode.IsSpace). */
  predicate IsSpace(c: char)
  {
    c == ' ' || c == '\t' || c == '\n' || c == '\U{000B}' || c == '\U{000C}' || c == '\r'
    || c == '\U{0085}' || c == '\U{00A0}' || c == '\U{1680}' || ('\U{2000}' <= c <= '\U{200A}')
    || c == '\U{2028}' || c == '\U{2029}' || c == '\U{202F}' || c == '\U{205F}' || c == '\U{3000}'
  }

  function TrimLeftSpace(s: string): (r: string)
    ensures |r| <= |s| && r == s[|s| - |r|..]
    ensures forall i :: 0 <= i < |s| - |r| ==> IsSpace(s[i])
    ensures r == [] || !IsSpace(r[0])
  {
    if s == [] || !IsSpace(s[0]) then s else TrimLeftSpace(s[1..])
  }

  function TrimRightSpace(s: string): (r: string)
    ensures r <= s
    ensures forall i :: |r| <= i < |s| ==> IsSpace(s[i])
    ensures r == [] || !IsSpace(r[|r| - 1])
  {
    if s == [] || !IsSpace(s[|s| - 1]) then s else TrimRightSpace(s[..|s| - 1])
  }

  /** strings.TrimSpace: the longest infix of s that neither starts nor ends with space. */
  function TrimSpace(s: string): (r: string)
    ensures exists i :: OccursAt(s, r, i)
    ensures r == [] || (!IsSpace(r[0]) && !IsSpace(r[|r| - 1]))
  {
    var l := TrimLeftSpace(s);
    var r := TrimRightSpace(l);
    SuffixPrefixOccurs(s, l, r);
    assert r != [] ==> r[0] == l[0];
    r
  }

  /** A string that neither starts nor ends with space is its own TrimSpace. */
  lemma TrimSpaceOfTrimmed(s: string)
    requires s == [] || (!IsSpace(s[0]) && !IsSpace(s[|s| - 1]))
    ensures TrimSpace(s) == s
  {
  }

  /** A prefix of a suffix of s occurs in s where the suffix starts. */
  lemma SuffixPrefixOccurs(s: string, l: string, r: string)
    requires |l| <= |s| && l == s[|s| - |l|..] && r <= l
    ensures OccursAt(s, r, |s| - |l|)
  {
    assert s[|s| - |l|..|s| - |l| + |r|] == l[..|r|];
  }

  /** strings.Split(s, string(sep))[0]: everything before the first sep. */
  function FirstField(s: string, sep: char): (r: string)
    ensures r <= s && sep !in r
    ensures |r| < |s| ==> s[|r|] == sep
  {
    match IndexOf(s, sep)
    case None => s
    case Some(k) => s[..k]
  }

  /** ASCII upper-casing of one byte. */
  function UpperChar(c: char): char
  {
    if 'a' <= c <= 'z' then (c as int - 32) as char else c
  }

  /** strings.ToUpper restricted to ASCII letters. */
  function ToUpper(s: string): (r: string)
    ensures |r| == |s| && forall i :: 0 <= i < |s| ==> r[i] == UpperChar(s[i])
  {
    seq(|s|, i requires 0 <= i < |s| => UpperChar(s[i]))
  }

  predicate IsDigit(c: char) { '0' <= c <= '9' }

  predicate AllDigits(s: string) { forall i :: 0 <= i < |s| ==> IsDigit(s[i]) }

  function DigitChar(d: nat): (c: char)
    requires d < 10
    ensures IsDigit(c) && c as int - '0' as int == d
  {
    ('0' as int + d) as char
  }

  /** The value of a string of decimal digits. */
  function DigitsValue(s: string): nat
    requires AllDigits(s)
  {
    if s == [] then 0 else 10 * DigitsValue(s[..|s| - 1]) + (s[|s| - 1] as int - '0' as int)
  }

  /** strconv.FormatUint(n, 10): the shortest decimal representation. */
  function NatToString(n: nat): (s: string)
    ensures |s| >= 1 && AllDigits(s)
    ensures |s| > 1 ==> s[0] != '0'
  {
    if n < 10 then [DigitChar(n)] else NatToString(n / 10) + [DigitChar(n % 10)]
  }

  /** strconv.Itoa / strconv.FormatInt(i, 10). */
  function IntToString(i: int): (s: string)
    ensures |s| >= 1
  {
    if i < 0 then "-" + NatToString(-i) else NatToString(i)
  }

  /** The unbounded value of an optional sign followed by one or more decimal digits; None for any other string. */
  function SignedDecimal(s: string): (r: Option<int>)
    ensures s == [] ==> r.None?
  {
    if s == [] then None
    else
      var digits := if s[0] == '+' || s[0] == '-' then s[1..] else s;
      if digits == [] || !AllDigits(digits) then None
      else Some(if s[0] == '-' then 0 - DigitsValue(digits) else DigitsValue(digits))
  }

  /** strconv.ParseInt(s, 10, 64), and strconv.Atoi on a 64-bit platform: a signed decimal in int64 range. */
  function ParseInt(s: string): (r: Option<int>)
    ensures r.Some? ==> InInt64(r.value)
    ensures r.Some? <==> SignedDecimal(s).Some? && InInt64(SignedDecimal(s).value)
  {
    match SignedDecimal(s)
    case Some(v) => if InInt64(v) then Some(v) else None
    case None => None
  }

  /**
   * The int strconv.Atoi returns beside its error: 0 on a syntax error, the
   * nearest int64 bound on a range error, the value otherwise.
   */
  function AtoiValue(s: string): (v: int)
    ensures InInt64(v)
    ensures ParseInt(s).Some? ==> v == ParseInt(s).value
    ensures SignedDecimal(s).None? ==> v == 0
  {
    match SignedDecimal(s)
    case None => 0
    case Some(v) => if v < MinInt64 then MinInt64 else if v > MaxInt64 then MaxInt64 else v
  }

  lemma {:induction false} DigitsValueOfNatToString(n: nat)
    ensures DigitsValue(NatToString(n)) == n
  {
    if n >= 10 {
      var s := NatToString(n);
      DigitsValueOfNatToString(n / 10);
      assert s[..|s| - 1] == NatToString(n / 10);
    }
  }

  lemma SignedDecimalOfNatToString(n: nat)
    ensures SignedDecimal(NatToString(n)) == Some(n)
  {
    DigitsValueOfNatToString(n);
    var s := NatToString(n);
    assert s[0] != '+' && s[0] != '-' by {
      assert IsDigit(s[0]);
    }
  }

  lemma SignedDecimalOfMinus(d: string, n: nat)
    requires |d| >= 1 && AllDigits(d) && DigitsValue(d) == n
    ensures SignedDecimal("-" + d) == Some(0 - n)
  {
    assert ("-" + d)[1..] == d;
  }

  lemma SignedDecimalOfNegative(i: int)
    requires i < 0
    ensures SignedDecimal(IntToString(i)) == Some(i)
  {
    var d := NatToString(-i);
    DigitsValueOfNatToString(-i);
    assert IntToString(i) == "-" + d;
    SignedDecimalOfMinus(d, -i);
  }

  /** Formatting an int64 in decimal and parsing it back gives the same number. */
  lemma ParseIntOfIntToString(i: int)
    requires InInt64(i)
    ensures ParseInt(IntToString(i)) == Some(i)
  {
    if i < 0 {
      SignedDecimalOfNegative(i);
    } else {
      SignedDecimalOfNatToString(i);
    }
  }
}
