/** Values of request-body fields and the Python conversions the views apply to them. */
module Values {
  import opened Outcomes

  /** What `request.data.get(name)` yields for one field of a JSON body. */
  datatype Value = Absent | Null | Int(n: int) | Str(s: string)

  /** Python truthiness of a field value: `not v` holds exactly for a missing field, null, 0 and "". */
  function Truthy(v: Value): (b: bool)
    ensures !b <==> v in {Absent, Null, Int(0), Str("")}
  {
    match v
    case Absent => false
    case Null => false
    case Int(n) => n != 0
    case Str(s) => s != ""
  }

  // ---------------------------------------------------------------- str.strip()

  /** The characters for which Python's `str.isspace` holds; `str.strip()` removes them. */
  predicate IsSpace(c: char) {
    || c == ' ' || c == '\t' || c == '\n' || c == '\r' || c == '\U{B}' || c == '\U{C}'
    || ('\U{1C}' <= c <= '\U{1F}')
    || c == '\U{85}' || c == '\U{A0}' || c == '\U{1680}'
    || ('\U{2000}' <= c <= '\U{200A}')
    || c == '\U{2028}' || c == '\U{2029}' || c == '\U{202F}' || c == '\U{205F}' || c == '\U{3000}'
  }

  predicate AllSpace(s: string) {
    forall i :: 0 <= i < |s| ==> IsSpace(s[i])
  }

  /** `s.strip()`: `s` without its leading and trailing whitespace. The result neither starts
      nor ends with whitespace, and it is empty exactly when `s` is all whitespace. */
  function Trim(s: string): (r: string)
    ensures |r| <= |s|
    ensures r == [] || (!IsSpace(r[0]) && !IsSpace(r[|r| - 1]))
    ensures r == [] <==> AllSpace(s)
  {
    if s == [] then []
    else if IsSpace(s[0]) then Trim(s[1..])
    else if IsSpace(s[|s| - 1]) then
      assert s[..|s| - 1][0] == s[0];
      Trim(s[..|s| - 1])
    else s
  }

  /** `r` sits in `s` at offset `i` with nothing but whitespace on either side of it. */
  predicate PaddedAt(s: string, r: string, i: int) {
    0 <= i <= |s| - |r| && r == s[i..i + |r|] && AllSpace(s[..i]) && AllSpace(s[i + |r|..])
  }

  lemma PaddedAfterSpace(s: string, r: string, j: int)
    requires s != [] && IsSpace(s[0]) && PaddedAt(s[1..], r, j)
    ensures PaddedAt(s, r, j + 1)
  {
    var t := s[1..];
    assert s[..j + 1] == [s[0]] + t[..j];
    assert s[j + 1..j + 1 + |r|] == t[j..j + |r|];
    assert s[j + 1 + |r|..] == t[j + |r|..];
  }

  lemma PaddedBeforeSpace(s: string, r: string, j: int)
    requires s != [] && IsSpace(s[|s| - 1]) && PaddedAt(s[..|s| - 1], r, j)
    ensures PaddedAt(s, r, j)
  {
    var p := s[..|s| - 1];
    assert s[..j] == p[..j];
    assert s[j..j + |r|] == p[j..j + |r|];
    assert s[j + |r|..] == p[j + |r|..] + [s[|s| - 1]];
  }

  /** What strip keeps is the middle of `s`: only whitespace is cut off, on either side. */
  lemma {:induction false} TrimKeepsMiddle(s: string)
    ensures exists i :: PaddedAt(s, Trim(s), i)
  {
    var r := Trim(s);
    if s == [] {
      assert PaddedAt(s, r, 0);
    } else if IsSpace(s[0]) {
      TrimKeepsMiddle(s[1..]);
      var j :| PaddedAt(s[1..], r, j);
      PaddedAfterSpace(s, r, j);
    } else if IsSpace(s[|s| - 1]) {
      TrimKeepsMiddle(s[..|s| - 1]);
      var j :| PaddedAt(s[..|s| - 1], r, j);
      PaddedBeforeSpace(s, r, j);
    } else {
      assert s[..0] == [] && s[|r|..] == [];
      assert PaddedAt(s, r, 0);
    }
  }

  /** A string that neither starts nor ends with whitespace is its own strip. */
  lemma TrimUnpadded(s: string)
    requires s != [] && !IsSpace(s[0]) && !IsSpace(s[|s| - 1])
    ensures Trim(s) == s
  {
  }

  /** Stripping twice strips nothing more. */
  lemma TrimIdempotent(s: string)
    ensures Trim(Trim(s)) == Trim(s)
  {
  }

  /** Whitespace around an unpadded string is exactly what strip removes. */
  lemma TrimPadded(pre: string, x: string, post: string)
    requires AllSpace(pre) && AllSpace(post)
    requires x != [] && !IsSpace(x[0]) && !IsSpace(x[|x| - 1])
    ensures Trim(pre + x + post) == x
  {
    assert pre + x + post == pre + (x + post);
    assert (x + post)[0] == x[0];
    TrimLeading(pre, x + post);
    TrimTrailing(x, post);
  }

  lemma {:induction false} TrimLeading(pre: string, y: string)
    requires AllSpace(pre) && y != [] && !IsSpace(y[0])
    ensures Trim(pre + y) == Trim(y)
  {
    if pre != [] {
      var s := pre + y;
      assert s[0] == pre[0];
      assert s[1..] == pre[1..] + y;
      TrimLeading(pre[1..], y);
    } else {
      assert pre + y == y;
    }
  }

  lemma {:induction false} TrimTrailing(x: string, post: string)
    requires AllSpace(post)
    requires x != [] && !IsSpace(x[0]) && !IsSpace(x[|x| - 1])
    ensures Trim(x + post) == x
  {
    var s := x + post;
    if post != [] {
      var p := post[..|post| - 1];
      assert s[0] == x[0] && s[|s| - 1] == post[|post| - 1];
      assert s[..|s| - 1] == x + p;
      TrimTrailing(x, p);
    } else {
      assert s == x;
    }
  }

  // ---------------------------------------------------------------- U+0000

  /** No U+0000 anywhere in `s`. */
  predicate NulFree(s: string) {
    forall i :: 0 <= i < |s| ==> s[i] != '\0'
  }

  /** U+0000 is not whitespace, so stripping never removes one: the stripped text is free of
      U+0000 exactly when the input is. */
  lemma {:induction false} TrimKeepsNul(s: string)
    ensures NulFree(Trim(s)) <==> NulFree(s)
  {
    if s == [] {
    } else if IsSpace(s[0]) {
      TrimKeepsNul(s[1..]);
      assert s == [s[0]] + s[1..];
      assert NulFree(s) <==> NulFree(s[1..]);
    } else if IsSpace(s[|s| - 1]) {
      TrimKeepsNul(s[..|s| - 1]);
      assert s == s[..|s| - 1] + [s[|s| - 1]];
      assert NulFree(s) <==> NulFree(s[..|s| - 1]);
    }
  }

  // ---------------------------------------------------------------- int(s)

  predicate IsDigit(c: char) {
    '0' <= c <= '9'
  }

  predicate AllDigits(s: string) {
    forall i :: 0 <= i < |s| ==> IsDigit(s[i])
  }

  function DigitValue(c: char): nat
    requires IsDigit(c)
  {
    c as int - '0' as int
  }

  function DigitChar(d: nat): (c: char)
    requires d < 10
    ensures IsDigit(c) && DigitValue(c) == d
  {
    ('0' as int + d) as char
  }

  predicate IsSign(c: char) {
    c == '+' || c == '-'
  }

  /** The ASCII information separators U+001C..U+001F: `str.isspace` holds for them, but `int()`
      does not skip them, since it skips only `" \t\n\v\f\r"` among ASCII characters. */
  predicate IsSeparator(c: char) {
    '\U{1C}' <= c <= '\U{1F}'
  }

  /** The whitespace `int()` skips around a numeral. */
  predicate IntSpace(c: char) {
    IsSpace(c) && !IsSeparator(c)
  }

  predicate AllIntSpace(s: string) {
    forall i :: 0 <= i < |s| ==> IntSpace(s[i])
  }

  predicate NoSeparator(s: string) {
    forall i :: 0 <= i < |s| ==> !IsSeparator(s[i])
  }

  lemma DigitNotSpace(c: char)
    requires IsDigit(c)
    ensures !IsSpace(c) && !IsSign(c) && !IsSeparator(c)
  {
  }

  /** The number a string of decimal digits denotes, most significant digit first. */
  function DigitsValue(s: string): nat
    requires AllDigits(s)
  {
    if s == [] then 0 else 10 * DigitsValue(s[..|s| - 1]) + DigitValue(s[|s| - 1])
  }

  /** Digits with single underscores between them: the part of a numeral after its sign. */
  predicate DigitGroups(s: string) {
    && s != [] && IsDigit(s[0]) && IsDigit(s[|s| - 1])
    && (forall i :: 0 <= i < |s| ==> IsDigit(s[i]) || s[i] == '_')
    && (forall i :: 0 <= i < |s| - 1 ==> DigitAfterUnderscore(s, i))
  }

  /** An underscore at `i` is followed by a digit. */
  predicate DigitAfterUnderscore(s: string, i: int)
    requires 0 <= i < |s| - 1
  {
    s[i] == '_' ==> IsDigit(s[i + 1])
  }

  /** The digit characters of `s`, in order. */
  function DigitsOf(s: string): (r: string)
    ensures |r| <= |s|
  {
    if s == [] then [] else (if IsDigit(s[0]) then [s[0]] else []) + DigitsOf(s[1..])
  }

  lemma DigitsCons(s: string)
    requires s != []
    ensures DigitsOf(s) == DigitsOf([s[0]]) + DigitsOf(s[1..])
  {
    assert [s[0]][1..] == [];
  }

  lemma {:induction false} DigitsOfDigits(s: string)
    ensures AllDigits(DigitsOf(s))
  {
    if s != [] {
      DigitsOfDigits(s[1..]);
    }
  }

  /** Plain digits are their own digit characters. */
  lemma {:induction false} DigitsOfPlain(d: string)
    requires AllDigits(d)
    ensures DigitsOf(d) == d
  {
    if d != [] {
      assert forall i :: 0 <= i < |d| - 1 ==> d[1..][i] == d[i + 1];
      DigitsOfPlain(d[1..]);
      assert d == [d[0]] + d[1..];
    }
  }

  /** A string without digit characters contributes none. */
  lemma {:induction false} DigitsOfNone(s: string)
    requires forall i :: 0 <= i < |s| ==> !IsDigit(s[i])
    ensures DigitsOf(s) == []
  {
    if s != [] {
      assert forall i :: 0 <= i < |s| - 1 ==> s[1..][i] == s[i + 1];
      DigitsOfNone(s[1..]);
    }
  }

  lemma {:induction false} DigitsOfAppend(x: string, y: string)
    ensures DigitsOf(x + y) == DigitsOf(x) + DigitsOf(y)
  {
    if x == [] {
      assert x + y == y;
    } else {
      var z := x + y;
      assert z[0] == x[0];
      assert z[1..] == x[1..] + y;
      DigitsOfAppend(x[1..], y);
      DigitsCons(z);
      DigitsCons(x);
    }
  }

  /** A stripped numeral without its leading sign, if it has one. */
  function Unsigned(t: string): (u: string)
    ensures u == t || (t != [] && IsSign(t[0]) && u == t[1..])
  {
    if t != [] && IsSign(t[0]) then t[1..] else t
  }

  /** CPython's default limit on the digits of a decimal string `int()` converts
      (`sys.get_int_max_str_digits()`); underscores do not count. */
  const MaxStrDigits: nat := 4300

  /** Base-10 `int(s)` on a `str`: surrounding whitespace is ignored, then an optional sign, then
      ASCII digits with single underscores between them, at most `MaxStrDigits` of them. None
      where Python raises ValueError. A numeral holds no separator, so rejecting a separator
      anywhere in `s` is the same as refusing to skip one around the numeral. */
  function ParseInt(s: string): (r: Option<int>)
    ensures r.Some? <==>
      NoSeparator(s) && DigitGroups(Unsigned(Trim(s))) && |DigitsOf(Unsigned(Trim(s)))| <= MaxStrDigits
    ensures r.Some? && r.value < 0 ==> Trim(s)[0] == '-'
  {
    var t := Trim(s);
    var u := Unsigned(t);
    if !NoSeparator(s) || !DigitGroups(u) || |DigitsOf(u)| > MaxStrDigits then None
    else
      DigitsOfDigits(u);
      var m: int := DigitsValue(DigitsOf(u));
      Some(if t[0] == '-' then -m else m)
  }

  /** The decimal spelling of a natural number, as `str(n)` writes it. */
  function Decimal(n: nat): (r: string)
    ensures r != [] && AllDigits(r)
  {
    if n < 10 then [DigitChar(n)] else Decimal(n / 10) + [DigitChar(n % 10)]
  }

  /** The digits `str(n)` writes denote `n`. */
  lemma {:induction false} DecimalValue(n: nat)
    ensures DigitsValue(Decimal(n)) == n
  {
    var r := Decimal(n);
    if n < 10 {
      assert r[..|r| - 1] == [];
      assert DigitsValue(r) == 10 * DigitsValue([]) + DigitValue(r[0]);
    } else {
      DecimalValue(n / 10);
      assert r[..|r| - 1] == Decimal(n / 10);
    }
  }

  lemma NoSeparatorPadded(pre: string, x: string, post: string)
    requires NoSeparator(pre) && NoSeparator(post)
    ensures NoSeparator(pre + x + post) <==> NoSeparator(x)
  {
    var s := pre + x + post;
    assert forall k :: 0 <= k < |pre| ==> s[k] == pre[k];
    assert forall k :: 0 <= k < |x| ==> s[|pre| + k] == x[k];
    assert forall k :: 0 <= k < |post| ==> s[|pre| + |x| + k] == post[k];
    if NoSeparator(x) {
      forall i | 0 <= i < |s|
        ensures !IsSeparator(s[i])
      {
        if i < |pre| {
        } else if i < |pre| + |x| {
          assert s[i] == x[i - |pre|];
        } else {
          assert s[i] == post[i - |pre| - |x|];
        }
      }
    }
  }

  /** Whitespace `int()` skips, around a string that neither starts nor ends with whitespace, does
      not change what `int()` reads. */
  lemma ParseIgnoresPadding(pre: string, x: string, post: string)
    requires AllIntSpace(pre) && AllIntSpace(post)
    requires x != [] && !IsSpace(x[0]) && !IsSpace(x[|x| - 1])
    ensures ParseInt(pre + x + post) == ParseInt(x)
  {
    assert AllSpace(pre) && AllSpace(post);
    TrimPadded(pre, x, post);
    TrimUnpadded(x);
    NoSeparatorPadded(pre, x, post);
    ParseByTrim(pre + x + post, x);
  }

  /** `int()` sees a string only through its stripped form and whether it holds a separator. */
  lemma ParseByTrim(s1: string, s2: string)
    requires Trim(s1) == Trim(s2) && (NoSeparator(s1) <==> NoSeparator(s2))
    ensures ParseInt(s1) == ParseInt(s2)
  {
  }

  /** An unpadded numeral with an optional sign and plain digits reads as their value, negated
      after a minus, unless it has more digits than the limit. */
  lemma ParseNumeral(x: string, d: string)
    requires x != [] && !IsSpace(x[0]) && !IsSpace(x[|x| - 1])
    requires Unsigned(x) == d && d != [] && AllDigits(d)
    ensures ParseInt(x) ==
      if |d| <= MaxStrDigits then Some(if x[0] == '-' then -(DigitsValue(d) as int) else DigitsValue(d) as int)
      else None
  {
    DigitsAreGroups(d);
    assert NoSeparator(x) by {
      if x != d {
        assert forall k :: 0 <= k < |d| ==> x[k + 1] == d[k];
      }
    }
  }

  /** Digits alone are a numeral, and they are their own digit characters. */
  lemma DigitsAreGroups(d: string)
    requires d != [] && AllDigits(d)
    ensures DigitGroups(d) && DigitsOf(d) == d
  {
    DigitsOfPlain(d);
  }

  lemma ParseDigits(n: nat)
    ensures ParseInt(Decimal(n)) == if |Decimal(n)| <= MaxStrDigits then Some(n) else None
  {
    var d := Decimal(n);
    DecimalValue(n);
    DigitNotSpace(d[0]);
    DigitNotSpace(d[|d| - 1]);
    ParseNumeral(d, d);
  }

  /** Reading back what `str` wrote gives the number again, whatever whitespace `int()` skips
      surrounds it, as long as it is within the digit limit; beyond it nothing is read. */
  lemma ParseDecimal(n: nat, pre: string, post: string)
    requires AllIntSpace(pre) && AllIntSpace(post)
    ensures ParseInt(pre + Decimal(n) + post) == if |Decimal(n)| <= MaxStrDigits then Some(n) else None
  {
    ParseIgnoresPadding(pre, Decimal(n), post);
    ParseDigits(n);
  }

  /** A sign in front of the digits: `+n` reads as `n` and `-n` as its negation, within the digit
      limit. */
  lemma ParseSigned(n: nat, pre: string, post: string)
    requires AllIntSpace(pre) && AllIntSpace(post)
    ensures ParseInt(pre + (['+'] + Decimal(n)) + post) == if |Decimal(n)| <= MaxStrDigits then Some(n) else None
    ensures ParseInt(pre + (['-'] + Decimal(n)) + post) == if |Decimal(n)| <= MaxStrDigits then Some(-(n as int)) else None
  {
    DecimalValue(n);
    ParseSignedPadded(Decimal(n), '+', pre, post);
    ParseSignedPadded(Decimal(n), '-', pre, post);
  }

  lemma ParseSignedPadded(d: string, sign: char, pre: string, post: string)
    requires AllIntSpace(pre) && AllIntSpace(post)
    requires d != [] && AllDigits(d) && IsSign(sign)
    ensures ParseInt(pre + ([sign] + d) + post) ==
      if |d| <= MaxStrDigits then Some(if sign == '-' then -(DigitsValue(d) as int) else DigitsValue(d) as int)
      else None
  {
    SignedUnpadded(d, sign);
    ParseIgnoresPadding(pre, [sign] + d, post);
    ParseNumeral([sign] + d, d);
  }

  /** A sign in front of digits neither starts nor ends with whitespace. */
  lemma SignedUnpadded(d: string, sign: char)
    requires d != [] && AllDigits(d) && IsSign(sign)
    ensures var x := [sign] + d; x != [] && !IsSpace(x[0]) && !IsSpace(x[|x| - 1]) && Unsigned(x) == d
  {
    var x := [sign] + d;
    DigitNotSpace(d[|d| - 1]);
    assert x[0] == sign && x[|x| - 1] == d[|d| - 1];
    assert x[1..] == d;
  }

  lemma GroupedDigits(a: string, b: string)
    requires a != [] && b != [] && AllDigits(a) && AllDigits(b)
    ensures DigitGroups(a + ['_'] + b)
    ensures DigitsOf(a + ['_'] + b) == a + b
  {
    GroupedForm(a, b);
    GroupedDrop(a, b);
  }

  lemma GroupedForm(a: string, b: string)
    requires a != [] && b != [] && AllDigits(a) && AllDigits(b)
    ensures DigitGroups(a + ['_'] + b)
  {
    var s := a + ['_'] + b;
    assert forall k :: 0 <= k < |a| ==> s[k] == a[k];
    assert forall k :: 0 <= k < |b| ==> s[|a| + 1 + k] == b[k];
    forall i | 0 <= i < |s| - 1
      ensures DigitAfterUnderscore(s, i)
    {
      if s[i] == '_' {
        assert i == |a|;
      }
    }
  }

  lemma GroupedDrop(a: string, b: string)
    requires AllDigits(a) && AllDigits(b)
    ensures DigitsOf(a + ['_'] + b) == a + b
  {
    assert DigitsOf(['_']) == [] by {
      assert ['_'][1..] == [];
    }
    assert DigitsOf(a + ['_']) == a by {
      DigitsOfAppend(a, ['_']);
      DigitsOfPlain(a);
      assert a + [] == a;
    }
    DigitsOfAppend(a + ['_'], b);
    DigitsOfPlain(b);
  }

  /** An underscore between two runs of digits changes nothing: `int("1_000") == int("1000")`. */
  lemma ParseGrouped(a: string, b: string)
    requires a != [] && b != [] && AllDigits(a) && AllDigits(b)
    ensures ParseInt(a + ['_'] + b) == ParseInt(a + b)
  {
    var s := a + ['_'] + b;
    var c := a + b;
    assert s[0] == a[0] && s[|s| - 1] == b[|b| - 1];
    assert c[0] == a[0] && c[|c| - 1] == b[|b| - 1];
    assert AllDigits(c);
    DigitNotSpace(a[0]);
    DigitNotSpace(b[|b| - 1]);
    GroupedDigits(a, b);
    assert NoSeparator(s) by {
      assert forall k :: 0 <= k < |s| ==> IsDigit(s[k]) || s[k] == '_';
    }
    ParseNumeral(c, c);
  }

  /** The characters a string `int()` accepts can hold. */
  predicate IntChar(c: char) {
    IsDigit(c) || c == '_' || IsSign(c) || IntSpace(c)
  }

  /** Every character of a string `int()` accepts is a digit, an underscore, a sign or whitespace
      `int()` skips. */
  lemma ParseAlphabet(s: string)
    ensures ParseInt(s).Some? ==> forall i :: 0 <= i < |s| ==> IntChar(s[i])
  {
    if ParseInt(s).Some? {
      TrimKeepsMiddle(s);
      var j :| PaddedAt(s, Trim(s), j);
      NumeralChars(Trim(s));
      PaddingChars(s, Trim(s), j);
    }
  }

  lemma NumeralChars(t: string)
    requires DigitGroups(Unsigned(t))
    ensures forall k :: 0 <= k < |t| ==> IntChar(t[k])
  {
    var u := Unsigned(t);
    forall k | 0 <= k < |t|
      ensures IntChar(t[k])
    {
      if u == t {
        assert u[k] == t[k];
      } else if k > 0 {
        assert u[k - 1] == t[k];
      }
    }
  }

  lemma PaddingChars(s: string, t: string, j: int)
    requires PaddedAt(s, t, j) && NoSeparator(s)
    requires forall k :: 0 <= k < |t| ==> IntChar(t[k])
    ensures forall i :: 0 <= i < |s| ==> IntChar(s[i])
  {
    forall i | 0 <= i < |s|
      ensures IntChar(s[i])
    {
      if i < j {
        assert s[..j][i] == s[i];
      } else if i < j + |t| {
        assert t[i - j] == s[i];
      } else {
        assert s[j + |t|..][i - j - |t|] == s[i];
      }
    }
  }

  /** A string holding any other character, a separator included, never parses. */
  lemma ParseRejectsNonDigit(s: string, i: nat)
    requires i < |s| && !IntChar(s[i])
    ensures ParseInt(s) == None
  {
    ParseAlphabet(s);
  }

  /** What `int()` reads is the number the digit characters of `s` spell, negated when the
      numeral starts with a minus. */
  lemma ParseValue(s: string)
    ensures ParseInt(s).Some? ==>
      && AllDigits(DigitsOf(s))
      && ParseInt(s).value == (if Trim(s)[0] == '-' then -(DigitsValue(DigitsOf(s)) as int) else DigitsValue(DigitsOf(s)) as int)
  {
    DigitsOfDigits(s);
    DigitsOfTrim(s);
    DigitsOfUnsigned(Trim(s));
  }

  /** Stripping removes no digit. */
  lemma {:induction false} DigitsOfTrim(s: string)
    ensures DigitsOf(Trim(s)) == DigitsOf(s)
  {
    if s == [] {
    } else if IsSpace(s[0]) {
      DigitsOfTrim(s[1..]);
      DigitsCons(s);
      assert DigitsOf([s[0]]) == [] by {
        assert [s[0]][1..] == [];
      }
    } else if IsSpace(s[|s| - 1]) {
      var p := s[..|s| - 1];
      DigitsOfTrim(p);
      assert s == p + [s[|s| - 1]];
      DigitsOfAppend(p, [s[|s| - 1]]);
      assert DigitsOf([s[|s| - 1]]) == [] by {
        assert [s[|s| - 1]][1..] == [];
      }
      assert p + [] == p;
    }
  }

  /** A sign is no digit. */
  lemma DigitsOfUnsigned(t: string)
    ensures DigitsOf(Unsigned(t)) == DigitsOf(t)
  {
    if Unsigned(t) != t {
      DigitsCons(t);
      assert DigitsOf([t[0]]) == [] by {
        assert [t[0]][1..] == [];
      }
    }
  }
}
