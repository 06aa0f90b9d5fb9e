/** Characters, longest matching prefixes and decimal numbers: the primitives the
    tunnel grammar is built from. */
module Text {
  import opened Wrappers

  datatype CharClass = Digits | Letters | HexDigits | HostNameChars | OptionNameChars | OptionValueChars

  predicate IsDigit(c: char) {
    '0' <= c <= '9'
  }

  predicate IsAlpha(c: char) {
    'a' <= c <= 'z' || 'A' <= c <= 'Z'
  }

  predicate Is(c: char, k: CharClass) {
    match k
    case Digits => IsDigit(c)
    case Letters => IsAlpha(c)
    case HexDigits => IsDigit(c) || 'a' <= c <= 'f' || 'A' <= c <= 'F'
    case HostNameChars => IsAlpha(c) || IsDigit(c) || c == '.' || c == '-'
    case OptionNameChars => IsAlpha(c) || IsDigit(c) || c == '_' || c == '-'
    case OptionValueChars => c != ',' && c != ']'
  }

  const DIGITS: string := "0123456789"
  const SMALL: string := "abcdefghijklmnopqrstuvwxyz"
  const CAPITALS: string := "ABCDEFGHIJKLMNOPQRSTUVWXYZ"

  lemma SmallLetters(c: char)
    ensures 'a' <= c <= 'z' <==> c in SMALL
  {
  }

  lemma CapitalLetters(c: char)
    ensures 'A' <= c <= 'Z' <==> c in CAPITALS
  {
  }

  lemma DecimalDigits(c: char)
    ensures IsDigit(c) <==> c in DIGITS
  {
  }

  /** The characters of each class, spelled out. */
  lemma Alphabets(c: char)
    ensures Is(c, Digits) <==> c in DIGITS
    ensures Is(c, Letters) <==> c in SMALL || c in CAPITALS
    ensures Is(c, HexDigits) <==> c in DIGITS || c in "abcdefABCDEF"
    ensures Is(c, HostNameChars) <==> c in SMALL || c in CAPITALS || c in DIGITS || c in ".-"
    ensures Is(c, OptionNameChars) <==> c in SMALL || c in CAPITALS || c in DIGITS || c in "_-"
    ensures Is(c, OptionValueChars) <==> c !in ",]"
  {
    SmallLetters(c);
    CapitalLetters(c);
    DecimalDigits(c);
    hide SMALL, CAPITALS, DIGITS;
  }

  predicate All(s: string, k: CharClass) {
    forall i | 0 <= i < |s| :: Is(s[i], k)
  }

  /** A text after which a run of `k` characters ends. */
  predicate Ends(k: CharClass, follow: string) {
    follow == "" || !Is(follow[0], k)
  }

  lemma AllAppend(a: string, b: string, k: CharClass)
    ensures All(a + b, k) <==> All(a, k) && All(b, k)
  {
    if All(a + b, k) {
      assert forall i | 0 <= i < |a| :: (a + b)[i] == a[i];
      assert forall i | 0 <= i < |b| :: (a + b)[|a| + i] == b[i];
    }
  }

  /** The length of the longest prefix of `s` made of `k` characters. */
  function Span(s: string, k: CharClass): (n: nat)
    ensures n <= |s| && Ends(k, s[n..])
  {
    if s == "" || !Is(s[0], k) then 0 else 1 + Span(s[1..], k)
  }

  lemma {:induction false} SpanAll(s: string, k: CharClass)
    ensures All(s[..Span(s, k)], k)
  {
    if s != "" && Is(s[0], k) {
      SpanAll(s[1..], k);
      var n := Span(s[1..], k);
      forall i | 0 <= i < 1 + n
        ensures Is(s[i], k)
      {
        assert i > 0 ==> s[i] == s[1..][..n][i - 1];
      }
    }
  }

  /** Greedy matching stops exactly where the run ends. */
  lemma {:induction false} SpanFollow(t: string, follow: string, k: CharClass)
    requires All(t, k) && Ends(k, follow)
    ensures Span(t + follow, k) == |t|
  {
    if t == "" {
      assert t + follow == follow;
    } else {
      assert (t + follow)[1..] == t[1..] + follow;
      SpanFollow(t[1..], follow, k);
    }
  }

  /** A run stops at a text that does not continue it. */
  lemma {:induction false} SpanWithin(t: string, follow: string, k: CharClass)
    requires Ends(k, follow)
    ensures Span(t + follow, k) <= |t|
  {
    if t == "" {
      assert t + follow == follow;
    } else {
      assert (t + follow)[1..] == t[1..] + follow;
      SpanWithin(t[1..], follow, k);
    }
  }

  lemma Assoc(a: string, b: string, c: string)
    ensures (a + b) + c == a + (b + c)
  {
  }

  lemma SplitAppend(a: string, b: string)
    ensures (a + b)[..|a|] == a && (a + b)[|a|..] == b
  {
  }

  lemma SplitTwo(s: string, n: nat, m: nat)
    requires n + m <= |s|
    ensures s[..n + m] == s[..n] + s[n..][..m]
  {
  }

  lemma SplitThree(s: string, n: nat, m: nat)
    requires n + 1 + m <= |s|
    ensures s[..n + 1 + m] == s[..n] + ([s[n]] + s[n + 1..][..m])
  {
  }

  function Digit(d: nat): (c: char)
    requires d < 10
  {
    '0' + d as char
  }

  function DigitValue(c: char): (d: nat)
    requires IsDigit(c)
    ensures d < 10
  {
    (c - '0') as nat
  }

  function Value(digits: string): (n: nat)
    requires All(digits, Digits)
  {
    if digits == "" then 0
    else Value(digits[..|digits| - 1]) * 10 + DigitValue(digits[|digits| - 1])
  }

  /** The decimal printing of a number. */
  function Decimal(n: nat): (s: string)
    ensures s != "" && All(s, Digits)
  {
    if n < 10 then [Digit(n)] else Decimal(n / 10) + [Digit(n % 10)]
  }

  lemma {:induction false} ValueDecimal(n: nat)
    ensures Value(Decimal(n)) == n
  {
    if n >= 10 {
      ValueDecimal(n / 10);
      assert Decimal(n)[..|Decimal(n)| - 1] == Decimal(n / 10);
    } else {
      assert Decimal(n)[..0] == "";
    }
  }

  /** No leading zeros are printed. */
  lemma {:induction false} DecimalShort(n: nat)
    ensures Decimal(n)[0] == '0' <==> n == 0
    ensures n == 0 ==> Decimal(n) == "0"
  {
    if n >= 10 {
      DecimalShort(n / 10);
    }
  }

  /** The outcome of a parser: what is left and what was recognised, an error
      after which an alternative may be tried, or a failure that ends the parse. */
  datatype IResult<+T> = Parsed(rest: string, value: T) | Error | Failure

  /** `s` is a nonempty digit string with a value up to `max`. */
  predicate IsNumber(s: string, max: nat) {
    s != "" && All(s, Digits) && Value(s) <= max
  }

  /** A bounded unsigned decimal: the longest run of digits, if it is in range. */
  function Unsigned(s: string, max: nat): (r: IResult<nat>) {
    var digits := s[..Span(s, Digits)];
    if IsNumber(digits, max) then Parsed(s[|digits|..], Value(digits)) else Error
  }

  lemma UnsignedExact(t: string, follow: string, max: nat)
    requires t != "" && All(t, Digits) && Ends(Digits, follow)
    ensures Unsigned(t + follow, max) == if Value(t) <= max then Parsed(follow, Value(t)) else Error
  {
    SpanFollow(t, follow, Digits);
    SplitAppend(t, follow);
  }

  lemma UnsignedSound(s: string, max: nat) returns (t: string)
    requires Unsigned(s, max).Parsed?
    ensures s == t + Unsigned(s, max).rest && IsNumber(t, max)
    ensures Unsigned(s, max).value == Value(t) && Ends(Digits, Unsigned(s, max).rest)
  {
    t := s[..Span(s, Digits)];
  }

  /** Consumes the single character `c`. */
  function Char(s: string, c: char): (r: IResult<()>) {
    if s != "" && s[0] == c then Parsed(s[1..], ()) else Error
  }

  lemma CharExact(c: char, follow: string)
    ensures Char([c] + follow, c) == Parsed(follow, ())
  {
    SplitAppend([c], follow);
  }

  lemma CharSound(s: string, c: char)
    requires Char(s, c).Parsed?
    ensures s == [c] + Char(s, c).rest
  {
  }

  /** The standard library's reading of a whole string as an unsigned number:
      digits, possibly after a plus sign. */
  function ParseUnsigned(s: string, max: nat): (r: Option<nat>) {
    var digits := if |s| > 1 && s[0] == '+' then s[1..] else s;
    if IsNumber(digits, max) then Some(Value(digits)) else None
  }

  /** Digits, with or without a plus sign before them, of value `n`. */
  predicate WritesNumber(s: string, max: nat, n: nat) {
    || (s != "" && All(s, Digits) && Value(s) == n <= max)
    || (|s| > 1 && s[0] == '+' && All(s[1..], Digits) && Value(s[1..]) == n <= max)
  }

  lemma ParseUnsignedIff(s: string, max: nat, n: nat)
    ensures ParseUnsigned(s, max) == Some(n) <==> WritesNumber(s, max, n)
  {
    assert s != "" && s[0] == '+' ==> !All(s, Digits);
  }

  /** The part before and the part after the last `c`. */
  function RightSplitOnce(s: string, c: char): (r: Option<(string, string)>)
  {
    if s == "" then None
    else if s[|s| - 1] == c then Some((s[..|s| - 1], ""))
    else match RightSplitOnce(s[..|s| - 1], c)
         case None => None
         case Some((left, right)) => Some((left, right + [s[|s| - 1]]))
  }

  lemma {:induction false} RightSplitOnceExact(left: string, right: string, c: char)
    requires c !in right
    ensures RightSplitOnce(left + [c] + right, c) == Some((left, right))
  {
    var s := left + [c] + right;
    if right == "" {
      assert s[..|s| - 1] == left;
    } else {
      var init := right[..|right| - 1];
      assert s[..|s| - 1] == left + [c] + init;
      RightSplitOnceExact(left, init, c);
      assert right == init + [right[|right| - 1]];
    }
  }
}
