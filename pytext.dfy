/**
  The handful of Python `str` operations the bot applies to user input and
  market names: `upper()`, `strip()`, `split()`, `lstrip("/")`,
  `replace(c, "")` and `float()` on a string.
 */
module PyText {
  import opened Wrappers

  /** The characters `str.isspace()` accepts, which `strip()` and `split()` remove. */
  predicate IsSpace(c: char) {
    c == ' ' || ('\t' <= c <= '\r') || ('\U{001C}' <= c <= '\U{001F}')
    || c == '\U{0085}' || c == '\U{00A0}' || c == '\U{1680}'
    || ('\U{2000}' <= c <= '\U{200A}') || c == '\U{2028}' || c == '\U{2029}'
    || c == '\U{202F}' || c == '\U{205F}' || c == '\U{3000}'
  }

  predicate IsLower(c: char) { 'a' <= c <= 'z' }

  predicate IsDigit(c: char) { '0' <= c <= '9' }

  function UpperChar(c: char): (u: char)
    ensures !IsLower(u)
    ensures !IsLower(c) ==> u == c
    ensures IsLower(c) ==> 'A' <= u <= 'Z' && u as int == c as int - 32
  {
    if IsLower(c) then (c as int - 32) as char else c
  }

  /** `s.upper()`, on the ASCII letters. */
  function Upper(s: string): (r: string)
    ensures |r| == |s|
    ensures forall i :: 0 <= i < |r| ==> !IsLower(r[i])
    ensures forall i :: 0 <= i < |s| && !IsLower(s[i]) ==> r[i] == s[i]
    ensures forall i :: 0 <= i < |s| && IsLower(s[i]) ==> r[i] as int == s[i] as int - 32
  {
    seq(|s|, i requires 0 <= i < |s| => UpperChar(s[i]))
  }

  /** A string with no lower-case ASCII letter is its own upper case. */
  lemma UpperOfUpper(s: string)
    requires forall i :: 0 <= i < |s| ==> !IsLower(s[i])
    ensures Upper(s) == s
  {
  }

  /** A string that neither starts nor ends with white space. */
  predicate Stripped(s: string) {
    s == [] || (!IsSpace(s[0]) && !IsSpace(s[|s| - 1]))
  }

  /** The first index at or after `a` that does not hold white space (`|s|` if there is none). */
  function SkipSpace(s: string, a: nat): (p: nat)
    requires a <= |s|
    ensures a <= p <= |s|
    ensures forall i :: a <= i < p ==> IsSpace(s[i])
    ensures p < |s| ==> !IsSpace(s[p])
    decreases |s| - a
  {
    if a < |s| && IsSpace(s[a]) then SkipSpace(s, a + 1) else a
  }

  /** The first index at or after `a` that holds white space (`|s|` if there is none). */
  function RunEnd(s: string, a: nat): (q: nat)
    requires a <= |s|
    ensures a <= q <= |s|
    ensures forall i :: a <= i < q ==> !IsSpace(s[i])
    ensures q < |s| ==> IsSpace(s[q])
    decreases |s| - a
  {
    if a < |s| && !IsSpace(s[a]) then RunEnd(s, a + 1) else a
  }

  /** The length of `s` without its trailing white space. */
  function VisibleEnd(s: string, b: nat): (e: nat)
    requires b <= |s|
    ensures e <= b
    ensures forall i :: e <= i < b ==> IsSpace(s[i])
    ensures 0 < e ==> !IsSpace(s[e - 1])
  {
    if 0 < b && IsSpace(s[b - 1]) then VisibleEnd(s, b - 1) else b
  }

  /** `s.strip()`: the longest middle part of `s` without white space at either end. */
  function Strip(s: string): (r: string)
    ensures Stripped(r)
    ensures |r| <= |s|
    ensures Stripped(s) ==> r == s
  {
    var a := SkipSpace(s, 0);
    if a == |s| then []
    else
      var b := VisibleEnd(s, |s|);
      assert a < b;
      s[a..b]
  }

  /**
    `strip()` is the part of `s` between its leading and its trailing white
    space: a slice `s[a..b]` that neither starts nor ends with white space,
    where everything before `a` and from `b` on is white space.
   */
  lemma StripIsSlice(s: string)
    ensures var a := SkipSpace(s, 0); var b := a + |Strip(s)|;
      && b <= |s| && Strip(s) == s[a..b] && Stripped(Strip(s))
      && (forall i :: 0 <= i < a ==> IsSpace(s[i]))
      && (forall i :: b <= i < |s| ==> IsSpace(s[i]))
  {
    var a := SkipSpace(s, 0);
    if a < |s| {
      var b := VisibleEnd(s, |s|);
      assert a < b;
      assert Strip(s) == s[a..b];
    }
  }

  /** `strip()` keeps every character that is not white space, in place. */
  lemma StripKeepsVisible(s: string)
    ensures forall i :: 0 <= i < |s| && !IsSpace(s[i]) ==> s[i] in Strip(s)
  {
    StripIsSlice(s);
    var a := SkipSpace(s, 0);
    forall i | 0 <= i < |s| && !IsSpace(s[i]) ensures s[i] in Strip(s) {
      assert Strip(s)[i - a] == s[i];
    }
  }

  /** Stripping a string without lower-case letters leaves none. */
  lemma StripNoLower(s: string)
    requires forall i :: 0 <= i < |s| ==> !IsLower(s[i])
    ensures forall i :: 0 <= i < |Strip(s)| ==> !IsLower(Strip(s)[i])
  {
    StripIsSlice(s);
  }

  /** The words of `s` from index `a` on: the maximal runs of non-space characters, in order. */
  function SplitFrom(s: string, a: nat): (words: seq<string>)
    requires a <= |s|
    ensures words == [] <==> forall i :: a <= i < |s| ==> IsSpace(s[i])
    decreases |s| - a
  {
    var p := SkipSpace(s, a);
    if p == |s| then []
    else [s[p..RunEnd(s, p)]] + SplitFrom(s, RunEnd(s, p))
  }

  /** `s.split()`: the maximal runs of non-space characters, in order. */
  function Split(s: string): (words: seq<string>)
    ensures words == [] <==> forall i :: 0 <= i < |s| ==> IsSpace(s[i])
  {
    SplitFrom(s, 0)
  }

  /** A non-empty run of characters none of which is white space. */
  predicate IsWord(w: string) {
    w != [] && forall i :: 0 <= i < |w| ==> !IsSpace(w[i])
  }

  /** Every word `split()` returns is non-empty and holds no white space. */
  lemma {:induction false} SplitWords(s: string, a: nat)
    requires a <= |s|
    ensures forall w :: w in SplitFrom(s, a) ==> IsWord(w)
    decreases |s| - a
  {
    var p := SkipSpace(s, a);
    if p < |s| {
      var q := RunEnd(s, p);
      assert IsWord(s[p..q]);
      SplitWords(s, q);
    }
  }

  /**
    The first word `split()` returns is the first maximal run of non-space
    characters: everything before it is white space, and white space or the
    end of the text follows it. The other words are those of the rest.
   */
  lemma SplitHead(s: string)
    requires Split(s) != []
    ensures var p := SkipSpace(s, 0); var q := RunEnd(s, p);
      && p < q && Split(s)[0] == s[p..q]
      && (forall i :: 0 <= i < p ==> IsSpace(s[i]))
      && (forall i :: p <= i < q ==> !IsSpace(s[i]))
      && (q < |s| ==> IsSpace(s[q]))
      && Split(s)[1..] == SplitFrom(s, q)
  {
  }

  /**
    Splitting from `a`, where white space runs up to `b` and visible
    characters from `b` up to `e`, followed by white space or the end:
    `s[b..e]` is the next word, and the words after it are those from `e`.
   */
  lemma SplitFromRun(s: string, a: nat, b: nat, e: nat, w: string)
    requires a <= b < e <= |s| && s[b..e] == w
    requires forall i :: a <= i < b ==> IsSpace(s[i])
    requires forall i :: b <= i < e ==> !IsSpace(s[i])
    requires e < |s| ==> IsSpace(s[e])
    ensures SplitFrom(s, a) == [w] + SplitFrom(s, e)
  {
    assert !IsSpace(s[b]);
    assert SkipSpace(s, a) == b;
    assert RunEnd(s, b) == e;
  }

  /** The first word of a text made of white space, then `w`, then white space or nothing, is `w`. */
  lemma SplitFirstWord(s: string, lead: string, w: string, tail: string)
    requires s == lead + w + tail
    requires forall i :: 0 <= i < |lead| ==> IsSpace(lead[i])
    requires w != [] && forall i :: 0 <= i < |w| ==> !IsSpace(w[i])
    requires tail == [] || IsSpace(tail[0])
    ensures Split(s) != [] && Split(s)[0] == w
  {
    var b := |lead|;
    var e := b + |w|;
    forall i | 0 <= i < b ensures IsSpace(s[i]) {
      assert s[i] == lead[i];
    }
    forall i | b <= i < e ensures !IsSpace(s[i]) {
      assert s[i] == w[i - b];
    }
    assert e < |s| ==> s[e] == tail[0];
    assert s[b..e] == w;
    SplitFromRun(s, 0, b, e, w);
  }

  /** The number of copies of `c` that `s` starts with, from index `a` on. */
  function SkipChar(s: string, c: char, a: nat): (p: nat)
    requires a <= |s|
    ensures a <= p <= |s|
    ensures forall i :: a <= i < p ==> s[i] == c
    ensures p < |s| ==> s[p] != c
    decreases |s| - a
  {
    if a < |s| && s[a] == c then SkipChar(s, c, a + 1) else a
  }

  /** `s.lstrip(c)`: drops every leading copy of `c`. */
  function LStripChar(s: string, c: char): (r: string)
    ensures |r| <= |s| && r == s[|s| - |r|..]
    ensures r == [] || r[0] != c
    ensures forall i :: 0 <= i < |s| - |r| ==> s[i] == c
  {
    s[SkipChar(s, c, 0)..]
  }

  /** Stripping the leading copies of `c` from `pre + w` gives `w` when `pre` is all `c` and `w` does not start with it. */
  lemma LStripCharPrefix(pre: string, w: string, c: char)
    requires forall i :: 0 <= i < |pre| ==> pre[i] == c
    requires w == [] || w[0] != c
    ensures LStripChar(pre + w, c) == w
  {
    var s := pre + w;
    assert SkipChar(s, c, 0) == |pre| by {
      var p := SkipChar(s, c, 0);
      assert forall i :: 0 <= i < |pre| ==> s[i] == c;
      assert p < |s| ==> s[p] != c;
      assert |pre| < |s| ==> s[|pre|] != c;
    }
  }

  /** `s.replace(c, "")`: drops every copy of `c`. */
  function Remove(s: string, c: char): (r: string)
    ensures c !in r
    ensures c !in s ==> r == s
  {
    if s == [] then []
    else if s[0] == c then Remove(s[1..], c)
    else [s[0]] + Remove(s[1..], c)
  }

  /** `replace(c, "")` keeps every other character, as often as it occurs. */
  lemma {:induction false} RemoveKeepsOthers(s: string, c: char, x: char)
    requires x != c
    ensures multiset(Remove(s, c))[x] == multiset(s)[x]
  {
    if s != [] {
      RemoveKeepsOthers(s[1..], c, x);
      assert s == [s[0]] + s[1..];
    }
  }

  /**
    `replace(c, "")` works piecewise: on a concatenation it is the
    concatenation of the two results, so the kept characters stay in order.
   */
  lemma {:induction false} RemoveConcat(a: string, b: string, c: char)
    ensures Remove(a + b, c) == Remove(a, c) + Remove(b, c)
  {
    if a == [] {
      assert a + b == b;
    } else {
      var ab := a + b;
      assert ab[0] == a[0] && ab[1..] == a[1..] + b;
      RemoveConcat(a[1..], b, c);
      if a[0] != c {
        calc {
          Remove(ab, c);
          [a[0]] + Remove(a[1..] + b, c);
          [a[0]] + (Remove(a[1..], c) + Remove(b, c));
          ([a[0]] + Remove(a[1..], c)) + Remove(b, c);
        }
      }
    }
  }

  /** On one character, `replace(c, "")` drops it exactly when it is `c`. */
  lemma RemoveOne(x: char, c: char)
    ensures Remove([x], c) == if x == c then [] else [x]
  {
    assert [x][1..] == [];
  }

  function DigitValue(c: char): (d: nat)
    requires IsDigit(c)
    ensures d < 10
  {
    c as int - '0' as int
  }

  predicate AllDigits(s: string) {
    forall i :: 0 <= i < |s| ==> IsDigit(s[i])
  }

  /** The natural number written in decimal by the digits `s`. */
  function DigitsValue(s: string): (n: nat)
    requires AllDigits(s)
  {
    if s == [] then 0 else 10 * DigitsValue(s[..|s| - 1]) + DigitValue(s[|s| - 1])
  }

  function Pow10(k: nat): (p: nat)
    ensures p >= 1
  {
    if k == 0 then 1 else 10 * Pow10(k - 1)
  }

  /** Index of the first `c` in `s`, or `|s|` if there is none. */
  function IndexOf(s: string, c: char): (k: nat)
    ensures k <= |s|
    ensures c !in s[..k]
    ensures k < |s| ==> s[k] == c
  {
    if s == [] || s[0] == c then 0 else 1 + IndexOf(s[1..], c)
  }

  /** A character that can occur in a number `float()` reads. */
  predicate IsNumeral(c: char) {
    IsDigit(c) || c == '+' || c == '-' || c == '.'
  }

  /** An unsigned decimal numeral: digits with at most one point, and at least one digit. */
  function ParseUnsigned(b: string): (r: Option<real>)
    ensures r.Some? ==> forall i :: 0 <= i < |b| ==> IsDigit(b[i]) || b[i] == '.'
    ensures r.Some? ==> r.value >= 0.0
  {
    var k := IndexOf(b, '.');
    var whole := b[..k];
    var frac := if k < |b| then b[k + 1..] else [];
    if AllDigits(whole) && AllDigits(frac) && |whole| + |frac| > 0 then
      assert forall i :: 0 <= i < |b| ==> IsDigit(b[i]) || b[i] == '.' by {
        forall i | 0 <= i < |b| ensures IsDigit(b[i]) || b[i] == '.' {
          if i > k { assert b[i] == frac[i - k - 1]; }
          if i < k { assert b[i] == whole[i]; }
        }
      }
      Some(Decimal(whole, frac))
    else
      None
  }

  /** The value of the numeral `whole.frac`. */
  function Decimal(whole: string, frac: string): (v: real)
    requires AllDigits(whole) && AllDigits(frac)
    ensures v >= 0.0
    ensures frac == [] ==> v == DigitsValue(whole) as real
  {
    DigitsValue(whole) as real + DigitsValue(frac) as real / Pow10(|frac|) as real
  }

  /**
    `float(s)` on a string: surrounding white space is ignored, then an
    optional sign and an unsigned decimal numeral.
   */
  function ParseFloat(s: string): Option<real> {
    var t := Strip(s);
    if t == [] then None
    else
      var signed := t[0] == '-' || t[0] == '+';
      var u := ParseUnsigned(if signed then t[1..] else t);
      if u.None? then None
      else Some(if t[0] == '-' then -u.value else u.value)
  }

  /** Whatever `float()` accepts holds nothing but numerals and white space. */
  lemma ParseAlphabet(s: string)
    ensures ParseFloat(s).Some? ==> forall i :: 0 <= i < |s| ==> IsNumeral(s[i]) || IsSpace(s[i])
  {
    var t := Strip(s);
    if t != [] {
      var signed := t[0] == '-' || t[0] == '+';
      if ParseUnsigned(if signed then t[1..] else t).Some? {
        NumeralsOnly(s, t, signed);
      }
    }
  }

  /** What `ParseFloat` accepts holds nothing but numerals and white space. */
  lemma NumeralsOnly(s: string, t: string, signed: bool)
    requires t == Strip(s) && t != []
    requires signed == (t[0] == '-' || t[0] == '+')
    requires ParseUnsigned(if signed then t[1..] else t).Some?
    ensures forall i :: 0 <= i < |s| ==> IsNumeral(s[i]) || IsSpace(s[i])
  {
    StripKeepsVisible(s);
    var body := if signed then t[1..] else t;
    forall i | 0 <= i < |t| ensures IsNumeral(t[i]) {
      if signed {
        if i > 0 { assert t[i] == body[i - 1]; }
      } else {
        assert t[i] == body[i];
      }
    }
    forall i | 0 <= i < |s| && !IsSpace(s[i]) ensures IsNumeral(s[i]) {
      var j :| 0 <= j < |t| && t[j] == s[i];
    }
  }

  /** Input that still holds a thousands separator or a percent sign is not a number. */
  lemma ParseRejects(s: string, c: char)
    requires c == ',' || c == '%'
    requires c in s
    ensures ParseFloat(s) == None
  {
    var i :| 0 <= i < |s| && s[i] == c;
    assert !IsNumeral(s[i]) && !IsSpace(s[i]);
    ParseAlphabet(s);
  }

  /** The decimal digits of `n`, without leading zeros (`"0"` for zero). */
  function NatDigits(n: nat): (s: string)
    ensures AllDigits(s) && s != []
  {
    if n < 10 then ['0' + n as char] else NatDigits(n / 10) + ['0' + (n % 10) as char]
  }

  lemma {:induction false} NatDigitsValue(n: nat)
    ensures DigitsValue(NatDigits(n)) == n
  {
    if n >= 10 {
      var s := NatDigits(n);
      assert s[..|s| - 1] == NatDigits(n / 10);
      NatDigitsValue(n / 10);
    }
  }

  /** A numeral made of digits only reads as the number those digits spell. */
  lemma DigitsParse(s: string)
    requires AllDigits(s) && s != []
    ensures ParseFloat(s) == Some(DigitsValue(s) as real)
  {
    assert !IsSpace(s[0]) && !IsSpace(s[|s| - 1]);
    assert Strip(s) == s;
    assert s[0] != '-' && s[0] != '+';
    UnsignedDigits(s);
  }

  /** Digits without a point read as the whole number they spell. */
  lemma UnsignedDigits(s: string)
    requires AllDigits(s) && s != []
    ensures ParseUnsigned(s) == Some(DigitsValue(s) as real)
  {
    assert forall i :: 0 <= i < |s| ==> s[i] != '.';
    assert IndexOf(s, '.') == |s|;
    assert s[..|s|] == s;
    assert DigitsValue([]) == 0 && Pow10(0) == 1;
  }

  /** Digits, a point and digits read as the whole part plus the fraction. */
  lemma UnsignedDecimal(body: string, whole: string, frac: string)
    requires AllDigits(whole) && AllDigits(frac) && |whole| + |frac| > 0
    requires body == whole + "." + frac
    ensures ParseUnsigned(body) == Some(Decimal(whole, frac))
  {
    assert '.' !in whole;
    FirstIndex(whole, '.', frac);
    var k := IndexOf(body, '.');
    assert body[..k] == whole by {
      assert body == whole + ("." + frac);
    }
    assert body[k + 1..] == frac;
  }

  /**
    `float()` of a signed numeral: a string without surrounding white space,
    made of an optional `+` or `-` and an unsigned numeral, reads as that
    numeral's value, negated after `-`.
   */
  lemma SignedParse(s: string, body: string, v: real)
    requires s != [] && Stripped(s)
    requires body == if s[0] == '-' || s[0] == '+' then s[1..] else s
    requires ParseUnsigned(body) == Some(v)
    ensures ParseFloat(s) == Some(if s[0] == '-' then -v else v)
  {
    var t := Strip(s);
    assert t == s;
    var signed := t[0] == '-' || t[0] == '+';
    assert (if signed then t[1..] else t) == body;
  }

  /** A minus sign in front of an unsigned numeral negates its value. */
  lemma NegativeParse(s: string, body: string, v: real)
    requires s == "-" + body
    requires body != [] && !IsSpace(body[|body| - 1])
    requires ParseUnsigned(body) == Some(v)
    ensures ParseFloat(s) == Some(-v)
  {
    assert s[1..] == body;
    SignedParse(s, body, v);
  }

  /** For instance, `float("-2.5")` is -2.5. */
  lemma NegativeDecimalExample()
    ensures ParseFloat("-2.5") == Some(-2.5)
  {
    var body := "2.5";
    assert body == "2" + "." + "5";
    assert Decimal("2", "5") == 2.5 by {
      assert DigitsValue("2") == 2 && DigitsValue("5") == 5 && Pow10(1) == 10;
    }
    UnsignedDecimal(body, "2", "5");
    NegativeParse("-2.5", body, 2.5);
  }

  /** The first `c` of `w + [c] + r` is right after `w` when `w` holds none. */
  lemma {:induction false} FirstIndex(w: string, c: char, r: string)
    requires c !in w
    ensures IndexOf(w + [c] + r, c) == |w|
  {
    if w != [] {
      FirstIndex(w[1..], c, r);
      assert (w + [c] + r)[1..] == w[1..] + [c] + r;
    }
  }

  /** A whole number typed in decimal reads back as that number. */
  lemma ParseNatDigits(n: nat)
    ensures ParseFloat(NatDigits(n)) == Some(n as real)
  {
    DigitsParse(NatDigits(n));
    NatDigitsValue(n);
  }
}
