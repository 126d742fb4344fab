/** Text primitives the screens rely on: Kotlin's `isBlank`, case-insensitive
    `contains`, `split`, `joinToString`, `String.replace`, `Int.toString` and
    `toIntOrNull`, each written out over `seq<char>`. */
module Strings {

  // ---------------------------------------------------------------------------
  // Blank strings and case folding
  // ---------------------------------------------------------------------------

  /** The ASCII characters `Char.isWhitespace` treats as white space. */
  predicate IsWhitespace(c: char)
  {
    c == ' ' || ('\t' <= c <= '\r') || ('\U{1C}' <= c <= '\U{1F}')
  }

  /** `isBlank`: empty, or made only of white space. It can be decided one
      character at a time from the front. */
  predicate IsBlank(s: string)
    ensures |s| == 0 ==> IsBlank(s)
    ensures |s| > 0 ==> (IsBlank(s) <==> IsWhitespace(s[0]) && IsBlank(s[1..]))
  {
    forall i :: 0 <= i < |s| ==> IsWhitespace(s[i])
  }

  /** A string with one visible character is never blank. */
  lemma NotBlankWhenVisible(s: string, i: nat)
    requires i < |s| && !IsWhitespace(s[i])
    ensures !IsBlank(s)
  {
  }

  /** ASCII lower-casing of one character. */
  function LowerChar(c: char): (r: char)
    ensures 'A' <= c <= 'Z' ==> 'a' <= r <= 'z' && r as int - c as int == 32
    ensures !('A' <= c <= 'Z') ==> r == c
  {
    if 'A' <= c <= 'Z' then (c as int + 32) as char else c
  }

  function Lower(s: string): (r: string)
    ensures |r| == |s|
    ensures forall i :: 0 <= i < |s| ==> r[i] == LowerChar(s[i])
  {
    seq(|s|, i requires 0 <= i < |s| => LowerChar(s[i]))
  }

  // ---------------------------------------------------------------------------
  // Substring search
  // ---------------------------------------------------------------------------

  /** `needle` occurs in `hay` at position `i`. */
  ghost predicate OccursAt(hay: string, needle: string, i: int)
  {
    0 <= i && i + |needle| <= |hay| && hay[i..i + |needle|] == needle
  }

  /** `hay.contains(needle)`, scanning from the front. The empty needle is
      found in every string; a needle longer than the haystack never is. */
  function Contains(hay: string, needle: string): (r: bool)
    ensures |needle| == 0 ==> r
    ensures r ==> |needle| <= |hay|
    decreases |hay|
  {
    assert |needle| == 0 ==> hay[..|needle|] == needle;
    (|needle| <= |hay| && hay[..|needle|] == needle) || (|hay| > 0 && Contains(hay[1..], needle))
  }

  /** A slice of the tail is the slice one further along. */
  lemma TailSlice(hay: string, i: nat, n: nat)
    requires 0 < |hay| && i + n <= |hay| - 1
    ensures hay[1..][i..i + n] == hay[i + 1..i + 1 + n]
  {
  }

  /** The scan finds `needle` exactly when it occurs at some position. */
  lemma {:induction false} ContainsIff(hay: string, needle: string)
    ensures Contains(hay, needle) <==> exists i :: OccursAt(hay, needle, i)
    decreases |hay|
  {
    if |needle| <= |hay| && hay[..|needle|] == needle {
      assert OccursAt(hay, needle, 0);
    } else if |hay| > 0 {
      forall i | OccursAt(hay, needle, i)
        ensures OccursAt(hay[1..], needle, i - 1)
      {
        assert i != 0;
        TailSlice(hay, i - 1, |needle|);
      }
      ContainsIff(hay[1..], needle);
      if Contains(hay[1..], needle) {
        var i :| OccursAt(hay[1..], needle, i);
        TailSlice(hay, i, |needle|);
        assert OccursAt(hay, needle, i + 1);
      }
    } else {
      forall i | OccursAt(hay, needle, i)
        ensures false
      {
      }
    }
  }

  /** `hay.contains(needle, ignoreCase = true)`, with ASCII case folding. */
  predicate ContainsIgnoreCase(hay: string, needle: string)
    ensures Contains(hay, needle) ==> ContainsIgnoreCase(hay, needle)
  {
    ContainsLower(hay, needle);
    Contains(Lower(hay), Lower(needle))
  }

  /** An exact match stays a match after lower-casing both sides. */
  lemma {:induction false} ContainsLower(hay: string, needle: string)
    ensures Contains(hay, needle) ==> Contains(Lower(hay), Lower(needle))
    decreases |hay|
  {
    if |needle| <= |hay| && hay[..|needle|] == needle {
      forall k | 0 <= k < |needle|
        ensures Lower(hay)[..|needle|][k] == Lower(needle)[k]
      {
        assert hay[k] == needle[k];
      }
      assert Lower(hay)[..|needle|] == Lower(needle);
    } else if |hay| > 0 && Contains(hay[1..], needle) {
      ContainsLower(hay[1..], needle);
      assert Lower(hay)[1..] == Lower(hay[1..]);
    }
  }

  // ---------------------------------------------------------------------------
  // split / joinToString on a single-character delimiter
  // ---------------------------------------------------------------------------

  /** `parts.joinToString(d)`: the empty list joins to "". */
  function Join(parts: seq<string>, d: char): (r: string)
    ensures |parts| == 1 ==> r == parts[0]
    ensures |parts| > 0 ==> |r| >= |parts[0]| && r[..|parts[0]|] == parts[0]
    decreases |parts|
  {
    if |parts| == 0 then ""
    else if |parts| == 1 then parts[0]
    else parts[0] + [d] + Join(parts[1..], d)
  }

  /** `s.split(d)`: every piece between delimiters, empty pieces and the
      trailing piece included, so there is always at least one piece. */
  function Split(s: string, d: char): (r: seq<string>)
    ensures |r| >= 1
    ensures forall k :: 0 <= k < |r| ==> d !in r[k]
    ensures Join(r, d) == s
    decreases |s|
  {
    if |s| == 0 then [""]
    else
      var rest := Split(s[1..], d);
      if s[0] == d then [""] + rest
      else [[s[0]] + rest[0]] + rest[1..]
  }

  /** How many times `c` occurs in `s`. */
  function Occurrences(s: string, c: char): (n: nat)
    ensures n <= |s|
    decreases |s|
  {
    if |s| == 0 then 0 else (if s[0] == c then 1 else 0) + Occurrences(s[1..], c)
  }

  lemma {:induction false} OccurrencesConcat(a: string, b: string, c: char)
    ensures Occurrences(a + b, c) == Occurrences(a, c) + Occurrences(b, c)
    decreases |a|
  {
    if |a| > 0 {
      OccurrencesConcat(a[1..], b, c);
      assert (a + b)[1..] == a[1..] + b;
    } else {
      assert a + b == b;
    }
  }

  lemma {:induction false} OccurrencesPositive(s: string, c: char)
    requires c in s
    ensures Occurrences(s, c) >= 1
    decreases |s|
  {
    if s[0] != c {
      OccurrencesPositive(s[1..], c);
    }
  }

  /** The number of pieces is one more than the number of delimiters. */
  lemma {:induction false} SplitCount(s: string, d: char)
    ensures |Split(s, d)| == Occurrences(s, d) + 1
    decreases |s|
  {
    if |s| > 0 {
      SplitCount(s[1..], d);
    }
  }

  lemma {:induction false} SplitWithoutDelimiter(p: string, d: char)
    requires d !in p
    ensures Split(p, d) == [p]
    decreases |p|
  {
    if |p| > 0 {
      SplitWithoutDelimiter(p[1..], d);
      assert [p[0]] + p[1..] == p;
    }
  }

  lemma {:induction false} SplitAfterPiece(p: string, d: char, t: string)
    requires d !in p
    ensures Split(p + [d] + t, d) == [p] + Split(t, d)
    decreases |p|
  {
    var s := p + [d] + t;
    if |p| == 0 {
      assert s[1..] == t;
    } else {
      assert s[1..] == p[1..] + [d] + t;
      SplitAfterPiece(p[1..], d, t);
      assert [p[0]] + p[1..] == p;
    }
  }

  /** Splitting undoes joining when no piece holds the delimiter. */
  lemma {:induction false} SplitJoin(parts: seq<string>, d: char)
    requires |parts| >= 1
    requires forall k :: 0 <= k < |parts| ==> d !in parts[k]
    ensures Split(Join(parts, d), d) == parts
    decreases |parts|
  {
    if |parts| == 1 {
      SplitWithoutDelimiter(parts[0], d);
    } else {
      SplitJoin(parts[1..], d);
      SplitAfterPiece(parts[0], d, Join(parts[1..], d));
      assert [parts[0]] + parts[1..] == parts;
    }
  }

  /** One step of `split` from the front. */
  lemma SplitCons(c: char, t: string, d: char)
    ensures Split([c] + t, d) ==
      if c == d then [""] + Split(t, d) else [[c] + Split(t, d)[0]] + Split(t, d)[1..]
  {
    assert ([c] + t)[1..] == t;
  }

  /** A delimiter splits the text on its two sides independently. */
  lemma {:induction false} SplitConcat(a: string, d: char, b: string)
    ensures Split(a + [d] + b, d) == Split(a, d) + Split(b, d)
    decreases |a|
  {
    if |a| == 0 {
      assert a + [d] + b == [d] + b;
      SplitCons(d, b, d);
    } else {
      var t := a[1..];
      assert a == [a[0]] + t;
      assert a + [d] + b == [a[0]] + (t + [d] + b);
      SplitConcat(t, d, b);
      SplitConcatStep(a[0], t, d, b);
    }
  }

  lemma SplitConcatStep(c: char, t: string, d: char, b: string)
    requires Split(t + [d] + b, d) == Split(t, d) + Split(b, d)
    ensures Split([c] + (t + [d] + b), d) == Split([c] + t, d) + Split(b, d)
  {
    SplitCons(c, t + [d] + b, d);
    SplitCons(c, t, d);
    ConsPieces(c, d, Split(t + [d] + b, d), Split(t, d), Split(b, d));
  }

  lemma ConsPieces(c: char, d: char, rest: seq<string>, ta: seq<string>, sb: seq<string>)
    requires rest == ta + sb && |ta| >= 1
    ensures (if c == d then [""] + rest else [[c] + rest[0]] + rest[1..]) ==
      (if c == d then [""] + ta else [[c] + ta[0]] + ta[1..]) + sb
  {
    if c != d {
      assert rest[0] == ta[0];
      assert rest[1..] == ta[1..] + sb;
    }
  }


  // ---------------------------------------------------------------------------
  // String.replace(oldValue, newValue): every occurrence, left to right
  // ---------------------------------------------------------------------------

  /** Kotlin's `replace`: occurrences are found from the left and do not
      overlap; an empty pattern matches before every character and at the end. */
  function ReplaceAll(s: string, pat: string, rep: string): (r: string)
    ensures |pat| > 0 && pat[0] !in s ==> r == s
    ensures rep == pat ==> r == s
    decreases |s|
  {
    if |pat| == 0 then
      (if |s| == 0 then rep else rep + [s[0]] + ReplaceAll(s[1..], pat, rep))
    else if |s| < |pat| then s
    else if s[..|pat|] == pat then rep + ReplaceAll(s[|pat|..], pat, rep)
    else [s[0]] + ReplaceAll(s[1..], pat, rep)
  }

  /** Text that cannot start the pattern passes through unchanged. */
  lemma {:induction false} ReplaceSkips(a: string, t: string, pat: string, rep: string)
    requires |pat| > 0 && pat[0] !in a
    ensures ReplaceAll(a + t, pat, rep) == a + ReplaceAll(t, pat, rep)
    decreases |a|
  {
    if |a| > 0 {
      var s := a + t;
      assert s[0] == a[0];
      if |s| < |pat| {
        assert ReplaceAll(t, pat, rep) == t;
      } else {
        assert s[..|pat|][0] != pat[0];
        assert s[1..] == a[1..] + t;
        ReplaceSkips(a[1..], t, pat, rep);
        assert [a[0]] + a[1..] == a;
      }
    } else {
      assert a + t == t;
    }
  }

  /** A pattern at the front is replaced. */
  lemma {:induction false} ReplaceHits(t: string, pat: string, rep: string)
    requires |pat| > 0
    ensures ReplaceAll(pat + t, pat, rep) == rep + ReplaceAll(t, pat, rep)
  {
    assert (pat + t)[..|pat|] == pat;
    assert (pat + t)[|pat|..] == t;
  }

  /** A route placeholder: `{name}` with no brace inside. */
  predicate IsPlaceholder(p: string)
  {
    |p| >= 2 && p[0] == '{' && p[|p| - 1] == '}' &&
    forall i :: 0 < i < |p| - 1 ==> p[i] != '{' && p[i] != '}'
  }

  /** A placeholder never starts with a different placeholder. */
  lemma {:induction false} PlaceholderNotPrefix(q: string, t: string, pat: string)
    requires IsPlaceholder(q) && IsPlaceholder(pat) && q != pat
    ensures !(|q + t| >= |pat| && (q + t)[..|pat|] == pat)
  {
    var s := q + t;
    if |s| >= |pat| {
      if |pat| < |q| {
        assert s[..|pat|][|pat| - 1] == q[|pat| - 1];
      } else if |pat| == |q| {
        assert s[..|pat|] == q;
      } else {
        assert s[..|pat|][|q| - 1] == q[|q| - 1];
      }
    }
  }

  /** Where the pattern does not match, one character is kept and the scan
      moves on. */
  lemma {:induction false} ReplaceStep(s: string, pat: string, rep: string)
    requires 0 < |pat| <= |s| && s[..|pat|] != pat
    ensures ReplaceAll(s, pat, rep) == [s[0]] + ReplaceAll(s[1..], pat, rep)
  {
  }

  lemma PlaceholderTailHasNoOpenBrace(q: string)
    requires IsPlaceholder(q)
    ensures '{' !in q[1..]
  {
    forall i | 0 <= i < |q[1..]| ensures q[1..][i] != '{' {
      assert q[1..][i] == q[i + 1];
    }
  }

  lemma {:induction false} ReplaceStepConcat(q: string, t: string, pat: string, rep: string)
    requires |pat| > 0 && |q| > 0 && |q + t| >= |pat|
    requires (q + t)[..|pat|] != pat
    ensures ReplaceAll(q + t, pat, rep) == [q[0]] + ReplaceAll(q[1..] + t, pat, rep)
  {
    var s := q + t;
    ReplaceStep(s, pat, rep);
    assert s[1..] == q[1..] + t;
  }

  lemma {:induction false} ReplaceSkipsAfterHead(q: string, t: string, pat: string, rep: string)
    requires |pat| > 0 && |q| > 0 && pat[0] !in q[1..]
    requires ReplaceAll(q + t, pat, rep) == [q[0]] + ReplaceAll(q[1..] + t, pat, rep)
    ensures ReplaceAll(q + t, pat, rep) == q + ReplaceAll(t, pat, rep)
  {
    ReplaceSkips(q[1..], t, pat, rep);
    assert [q[0]] + q[1..] == q;
  }

  /** Text whose first character does not start a match, and whose remaining
      characters cannot start one, passes through unchanged. */
  lemma {:induction false} ReplaceSkipsUnmatched(q: string, t: string, pat: string, rep: string)
    requires |pat| > 0 && |q| > 0 && pat[0] !in q[1..]
    requires !(|q + t| >= |pat| && (q + t)[..|pat|] == pat)
    ensures ReplaceAll(q + t, pat, rep) == q + ReplaceAll(t, pat, rep)
  {
    if |q + t| < |pat| {
      assert ReplaceAll(t, pat, rep) == t;
    } else {
      ReplaceStepConcat(q, t, pat, rep);
      ReplaceSkipsAfterHead(q, t, pat, rep);
    }
  }

  /** One placeholder is never mistaken for another. */
  lemma {:induction false} ReplaceSkipsOtherPlaceholder(q: string, t: string, pat: string, rep: string)
    requires IsPlaceholder(q) && IsPlaceholder(pat) && q != pat
    ensures ReplaceAll(q + t, pat, rep) == q + ReplaceAll(t, pat, rep)
  {
    PlaceholderNotPrefix(q, t, pat);
    PlaceholderTailHasNoOpenBrace(q);
    ReplaceSkipsUnmatched(q, t, pat, rep);
  }

  // ---------------------------------------------------------------------------
  // Decimal integers: Int.toString and String.toIntOrNull
  // ---------------------------------------------------------------------------

  const IntMin: int := -0x8000_0000
  const IntMax: int := 0x7FFF_FFFF

  predicate IsDigit(c: char) { '0' <= c <= '9' }

  function DigitChar(d: nat): (c: char)
    requires d < 10
    ensures IsDigit(c) && c as int - '0' as int == d
  {
    ('0' as int + d) as char
  }

  /** The value of a run of decimal digits, most significant first. */
  function DigitsValue(ds: string): (v: nat)
    requires forall i :: 0 <= i < |ds| ==> IsDigit(ds[i])
    decreases |ds|
  {
    if |ds| == 0 then 0
    else
      assert IsDigit(ds[|ds| - 1]);
      DigitsValue(ds[..|ds| - 1]) * 10 + (ds[|ds| - 1] as int - '0' as int)
  }

  /** The decimal form of a natural number, without leading zeros. */
  function NatToDecimal(n: nat): (s: string)
    ensures |s| >= 1 && forall i :: 0 <= i < |s| ==> IsDigit(s[i])
    ensures s[0] == '0' <==> n == 0
    ensures n == 0 ==> s == "0"
    decreases n
  {
    if n < 10 then [DigitChar(n)] else NatToDecimal(n / 10) + [DigitChar(n % 10)]
  }

  /** `Int.toString()`: a minus sign exactly for negative numbers, never a
      plus sign, then digits with no leading zero except for 0 itself. */
  function IntToDecimal(n: int): (s: string)
    ensures |s| >= 1 && '{' !in s
    ensures s[0] != '+'
    ensures s[0] == '-' <==> n < 0
    ensures n < 0 ==> |s| >= 2 && AllDigits(s[1..]) && s[1] != '0'
    ensures n >= 0 ==> AllDigits(s) && (s[0] == '0' <==> n == 0)
  {
    if n < 0 then "-" + NatToDecimal(-n) else NatToDecimal(n)
  }

  predicate AllDigits(ds: string)
  {
    forall i :: 0 <= i < |ds| ==> IsDigit(ds[i])
  }

  /** The length of a leading sign, if there is one. */
  function SignLength(s: string): (k: nat)
    ensures k <= |s|
  {
    if |s| > 0 && (s[0] == '-' || s[0] == '+') then 1 else 0
  }

  /** `toIntOrNull()`: an optional sign, at least one decimal digit, and a
      value that fits in 32 bits; anything else gives `None`. */
  function ParseInt(s: string): (r: Option<int>)
    ensures r.Some? ==> IntMin <= r.value <= IntMax
    ensures r.Some? ==> |s| > SignLength(s) && AllDigits(s[SignLength(s)..])
  {
    var digits := s[SignLength(s)..];
    if |digits| == 0 || !AllDigits(digits) then None
    else
      var v: int := if s[0] == '-' then -(DigitsValue(digits) as int) else DigitsValue(digits);
      if IntMin <= v <= IntMax then Some(v) else None
  }

  datatype Option<+T> = None | Some(value: T) {
    function GetOr(default: T): T
    {
      match this
      case Some(v) => v
      case None => default
    }
  }

  lemma {:induction false} DigitsOfNat(n: nat)
    ensures DigitsValue(NatToDecimal(n)) == n
    decreases n
  {
    var s := NatToDecimal(n);
    if n >= 10 {
      DigitsOfNat(n / 10);
      assert s[..|s| - 1] == NatToDecimal(n / 10);
    }
  }

  /** `toString()` followed by `toIntOrNull()` gives the number back for every
      32-bit value. */
  lemma {:induction false} ParseIntOfDecimal(n: int)
    requires IntMin <= n <= IntMax
    ensures ParseInt(IntToDecimal(n)) == Some(n)
  {
    var m: nat := if n < 0 then -n else n;
    var d := NatToDecimal(m);
    DigitsOfNat(m);
    var s := IntToDecimal(n);
    if n < 0 {
      assert s == "-" + d;
      assert SignLength(s) == 1;
      assert s[1..] == d;
    } else {
      assert s == d;
      assert SignLength(s) == 0;
      assert s[0..] == d;
    }
  }

  /** A string holding a character other than a digit or a leading sign never
      parses, e.g. a decimal point. */
  lemma ParseRejects(s: string, i: nat)
    requires i < |s| && !IsDigit(s[i]) && !(i == 0 && (s[i] == '-' || s[i] == '+'))
    ensures ParseInt(s) == None
  {
    var k := SignLength(s);
    if i >= k {
      assert s[k..][i - k] == s[i];
    }
  }
}
