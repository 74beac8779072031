/** The parts of Python's `str` behaviour the browser core relies on:
    `isspace`/`strip`, `startswith`/`endswith`, `lower` on the characters
    whose lower case is ASCII, f-string formatting of an optional value,
    and `int()` on decimal text. */
module PyStr {
  import opened Wrappers

  /** Python's `str.isspace` for one character: the Unicode whitespace set
      that `str.strip()` with no argument removes. */
  predicate IsSpace(c: char) {
    || ('\t' <= c <= '\r')
    || ('\U{1c}' <= c <= '\U{1f}')
    || c == ' '
    || c == '\U{85}'
    || c == '\U{a0}'
    || c == '\U{1680}'
    || ('\U{2000}' <= c <= '\U{200a}')
    || c == '\U{2028}'
    || c == '\U{2029}'
    || c == '\U{202f}'
    || c == '\U{205f}'
    || c == '\U{3000}'
  }

  /** Neither end of `s` is whitespace: what `strip()` guarantees. */
  predicate Trimmed(s: string) {
    |s| == 0 || (!IsSpace(s[0]) && !IsSpace(s[|s| - 1]))
  }

  /** `r` occurs in `s` as one contiguous run of characters. */
  ghost predicate IsSlice(r: string, s: string) {
    exists i, j :: 0 <= i <= j <= |s| && r == s[i..j]
  }

  /** The index of the first non-whitespace character of `s` at or after
      `from`; `|s|` when there is none. */
  function SkipSpace(s: string, from: nat): (k: nat)
    requires from <= |s|
    ensures from <= k <= |s|
    ensures forall i :: from <= i < k ==> IsSpace(s[i])
    ensures k == |s| || !IsSpace(s[k])
    decreases |s| - from
  {
    if from == |s| || !IsSpace(s[from]) then from else SkipSpace(s, from + 1)
  }

  /** The end of `s[..end]` once its trailing whitespace is dropped. */
  function SkipSpaceBack(s: string, end: nat): (k: nat)
    requires end <= |s|
    ensures k <= end
    ensures forall i :: k <= i < end ==> IsSpace(s[i])
    ensures k == 0 || !IsSpace(s[k - 1])
    decreases end
  {
    if end == 0 || !IsSpace(s[end - 1]) then end else SkipSpaceBack(s, end - 1)
  }

  /** Only one index is preceded by whitespace alone from `from` on and
      sits on a non-whitespace character or the end. */
  lemma SkipSpaceUnique(s: string, from: nat, k: nat)
    requires from <= k <= |s|
    requires forall i :: from <= i < k ==> IsSpace(s[i])
    requires k == |s| || !IsSpace(s[k])
    ensures SkipSpace(s, from) == k
  {
  }

  /** Python's `s.lstrip()`. */
  function LStrip(s: string): (r: string)
    ensures |r| <= |s| && r == s[|s| - |r|..]
    ensures forall i :: 0 <= i < |s| - |r| ==> IsSpace(s[i])
    ensures |r| == 0 || !IsSpace(r[0])
  {
    s[SkipSpace(s, 0)..]
  }

  /** Python's `s.rstrip()`. */
  function RStrip(s: string): (r: string)
    ensures |r| <= |s| && r == s[..|r|]
    ensures forall i :: |r| <= i < |s| ==> IsSpace(s[i])
    ensures |r| == 0 || !IsSpace(r[|r| - 1])
  {
    s[..SkipSpaceBack(s, |s|)]
  }

  /** `r` is `s[i..i + |r|]` and everything of `s` around it is whitespace. */
  ghost predicate StripsTo(s: string, i: nat, r: string) {
    && i + |r| <= |s|
    && r == s[i..i + |r|]
    && (forall k :: 0 <= k < i ==> IsSpace(s[k]))
    && (forall k :: i + |r| <= k < |s| ==> IsSpace(s[k]))
  }

  /** Python's `s.strip()`: the longest slice of `s` that begins and ends
      with a non-whitespace character, everything around it whitespace. */
  function Strip(s: string): (r: string)
    ensures Trimmed(r)
    ensures StripsTo(s, |s| - |LStrip(s)|, r)
  {
    RStripOfSuffix(s, |s| - |LStrip(s)|);
    RStrip(LStrip(s))
  }

  /** Right-stripping the suffix `s[i..]` keeps one slice of `s` starting
      at `i`, and everything it removes from `s` is whitespace. */
  lemma RStripOfSuffix(s: string, i: nat)
    requires i <= |s|
    ensures var r := RStrip(s[i..]);
      && r == s[i..i + |r|]
      && forall k :: i + |r| <= k < |s| ==> IsSpace(s[k])
  {
    var left := s[i..];
    var r := RStrip(left);
    assert r == left[..|r|];
    forall k | i + |r| <= k < |s|
      ensures IsSpace(s[k])
    {
      assert s[k] == left[k - i];
    }
  }

  /** Stripping never changes text that is already trimmed. */
  lemma StripTrimmed(s: string)
    requires Trimmed(s)
    ensures Strip(s) == s
  {
    StripFrom(s);
    assert SkipSpace(s, 0) == 0;
    assert s[0..|s|] == s;
    TrimmedSliceUnique(s, 0, s, Strip(s));
  }

  /** Whitespace on the left of trimmed-at-the-right text is all that
      `strip()` removes from it. */
  lemma StripOfRightTrimmed(s: string)
    requires |s| == 0 || !IsSpace(s[|s| - 1])
    ensures Strip(s) == LStrip(s)
  {
  }

  /** `lstrip` stops at the first non-whitespace character, even when
      that character starts an appended text. */
  lemma LStripAppend(a: string, b: string)
    requires |b| > 0 && !IsSpace(b[0])
    ensures LStrip(a + b) == LStrip(a) + b
  {
    var k := SkipSpace(a, 0);
    assert (a + b)[..|a|] == a;
    if k < |a| {
      assert (a + b)[k] == a[k];
    } else {
      assert (a + b)[|a|] == b[0];
    }
    SkipSpaceUnique(a + b, 0, k);
    assert (a + b)[k..] == a[k..] + b;
  }

  lemma {:induction false} StripIdempotent(s: string)
    ensures Strip(Strip(s)) == Strip(s)
  {
    StripTrimmed(Strip(s));
  }

  predicate StartsWith(s: string, prefix: string) {
    |prefix| <= |s| && s[..|prefix|] == prefix
  }

  predicate EndsWith(s: string, suffix: string) {
    |suffix| <= |s| && s[|s| - |suffix|..] == suffix
  }

  /** Python's `str.lower()` on the characters whose lower case is ASCII:
      the ASCII capitals, and the Kelvin sign U+212A, which lowers to `k`.
      Every other character is kept. */
  function LowerChar(c: char): char {
    if 'A' <= c <= 'Z' then (c as int - 'A' as int + 'a' as int) as char
    else if c == '\U{212A}' then 'k'
    else c
  }

  function Lower(s: string): (r: string)
    ensures |r| == |s|
    ensures forall i :: 0 <= i < |s| ==> r[i] == LowerChar(s[i])
  {
    seq(|s|, i requires 0 <= i < |s| => LowerChar(s[i]))
  }

  /** An f-string `{x}` of a value that is a string or `None`. */
  function Format(x: Option<string>): (r: string)
    ensures x.Some? ==> r == x.value
    ensures x.None? ==> r == "None"
  {
    match x
    case Some(v) => v
    case None => "None"
  }

  predicate IsDigit(c: char) {
    '0' <= c <= '9'
  }

  function DigitValue(c: char): (v: nat)
    requires IsDigit(c)
    ensures v < 10
  {
    c as int - '0' as int
  }

  function DigitChar(d: nat): (c: char)
    requires d < 10
    ensures IsDigit(c) && DigitValue(c) == d
  {
    (d + '0' as int) as char
  }

  /** The digit part accepted by Python's `int()` in base 10: decimal
      digits, where a single `_` may separate two digits. */
  predicate DigitGroup(d: string) {
    && |d| > 0
    && IsDigit(d[0])
    && forall i :: 0 <= i < |d| ==>
         IsDigit(d[i]) || (d[i] == '_' && 0 < i < |d| - 1 && IsDigit(d[i + 1]))
  }

  /** The value of a digit group, separators ignored. */
  function GroupValue(d: string): nat
  {
    if |d| == 0 then 0
    else if IsDigit(d[|d| - 1]) then GroupValue(d[..|d| - 1]) * 10 + DigitValue(d[|d| - 1])
    else GroupValue(d[..|d| - 1])
  }

  /** CPython's default cap on the number of digits `int()` converts from
      decimal text (`sys.int_info.default_max_str_digits`); longer text
      raises `ValueError`. */
  const MaxStrDigits := 4300

  /** The number of digits in a digit group, separators not counted. */
  function DigitCount(d: string): nat
  {
    if |d| == 0 then 0
    else if IsDigit(d[|d| - 1]) then DigitCount(d[..|d| - 1]) + 1
    else DigitCount(d[..|d| - 1])
  }

  /** A digit group `int()` converts: well formed and within the digit cap. */
  predicate Convertible(d: string) {
    DigitGroup(d) && DigitCount(d) <= MaxStrDigits
  }

  /** Text `int()` accepts once surrounding whitespace is gone. */
  predicate IntLiteral(t: string) {
    || Convertible(t)
    || (|t| > 0 && (t[0] == '+' || t[0] == '-') && Convertible(t[1..]))
  }

  /** `int()` on text that has no surrounding whitespace. */
  function ParseLiteral(t: string): (r: Option<int>)
    ensures r.Some? <==> IntLiteral(t)
    ensures r.Some? && r.value < 0 ==> t[0] == '-'
  {
    if |t| > 0 && (t[0] == '+' || t[0] == '-') then
      if Convertible(t[1..]) then
        var v: int := GroupValue(t[1..]);
        Some(if t[0] == '-' then -v else v)
      else
        None
    else if Convertible(t) then Some(GroupValue(t))
    else None
  }

  /** The ASCII information separators U+001C–U+001F. `str.isspace` holds
      for them, but CPython's number parser does not skip them. */
  predicate InfoSeparator(c: char) {
    '\U{1c}' <= c <= '\U{1f}'
  }

  /** The blanks `int()` skips around a number: the `str.isspace`
      characters other than the information separators. */
  predicate IntSpace(c: char) {
    IsSpace(c) && !InfoSeparator(c)
  }

  /** The index of the first character at or after `from` that `int()`
      does not skip; `|s|` when there is none. */
  function SkipIntSpace(s: string, from: nat): (k: nat)
    requires from <= |s|
    ensures from <= k <= |s|
    ensures forall i :: from <= i < k ==> IntSpace(s[i])
    ensures k == |s| || !IntSpace(s[k])
    decreases |s| - from
  {
    if from == |s| || !IntSpace(s[from]) then from else SkipIntSpace(s, from + 1)
  }

  /** The end of `s[..end]` once the blanks `int()` skips are dropped. */
  function SkipIntSpaceBack(s: string, end: nat): (k: nat)
    requires end <= |s|
    ensures k <= end
    ensures forall i :: k <= i < end ==> IntSpace(s[i])
    ensures k == 0 || !IntSpace(s[k - 1])
    decreases end
  {
    if end == 0 || !IntSpace(s[end - 1]) then end else SkipIntSpaceBack(s, end - 1)
  }

  /** The text `int()` converts: `s` without the blanks at either end. It
      is one slice of `s`, and everything around it is such a blank. */
  function IntStrip(s: string): (r: string)
    ensures |r| == 0 || (!IntSpace(r[0]) && !IntSpace(r[|r| - 1]))
    ensures var i := SkipIntSpace(s, 0);
      && i + |r| <= |s| && r == s[i..i + |r|]
      && (forall k :: 0 <= k < i ==> IntSpace(s[k]))
      && (forall k :: i + |r| <= k < |s| ==> IntSpace(s[k]))
  {
    var i := SkipIntSpace(s, 0);
    var j := SkipIntSpaceBack(s, |s|);
    if j <= i then "" else s[i..j]
  }

  /** Python's `int(text)` (base 10): surrounding blanks, an optional sign
      and a digit group of at most `MaxStrDigits` digits; `None` where
      Python raises `ValueError`. */
  function ParseInt(text: string): (r: Option<int>)
    ensures r.Some? <==> IntLiteral(IntStrip(text))
    ensures r.Some? && r.value < 0 ==> IntStrip(text)[0] == '-'
  {
    ParseLiteral(IntStrip(text))
  }

  /** Trimmed text has nothing for `int()` to skip. */
  lemma IntStripOfTrimmed(s: string)
    requires Trimmed(s)
    ensures IntStrip(s) == s
  {
  }

  /** Without information separators, `int()` skips exactly what `strip()`
      removes. */
  lemma IntStripIsStrip(s: string)
    requires forall k :: 0 <= k < |s| ==> !InfoSeparator(s[k])
    ensures IntStrip(s) == Strip(s)
  {
    var i := SkipIntSpace(s, 0);
    StripEndsAt(s);
    var r := IntStrip(s);
    if |r| > 0 {
      assert r[|r| - 1] == s[i + |r| - 1];
    }
    IntStripEndsAt(s);
    TrimmedSliceUnique(s, i, Strip(s), IntStrip(s));
  }

  /** `r` is the slice of `s` from `i` that ends on a non-whitespace
      character and is followed by whitespace only. */
  ghost predicate EndsAt(s: string, i: nat, r: string) {
    && i + |r| <= |s| && r == s[i..i + |r|]
    && (|r| == 0 || !IsSpace(r[|r| - 1]))
    && forall k :: i + |r| <= k < |s| ==> IsSpace(s[k])
  }

  /** Without information separators, `strip()` keeps the slice starting
      where `int()` stops skipping. */
  lemma StripEndsAt(s: string)
    requires forall k :: 0 <= k < |s| ==> !InfoSeparator(s[k])
    ensures EndsAt(s, SkipIntSpace(s, 0), Strip(s))
  {
    SkipsAgree(s);
    StripFrom(s);
  }

  /** Without information separators, `int()` and `strip()` stop skipping
      at the same character. */
  lemma SkipsAgree(s: string)
    requires forall k :: 0 <= k < |s| ==> !InfoSeparator(s[k])
    ensures SkipSpace(s, 0) == SkipIntSpace(s, 0)
  {
    var i := SkipIntSpace(s, 0);
    assert i == |s| || !IsSpace(s[i]) by {
      if i < |s| {
        assert !InfoSeparator(s[i]);
      }
    }
    SkipSpaceUnique(s, 0, i);
  }

  /** `strip()` keeps the slice from where `lstrip()` stops. */
  lemma StripFrom(s: string)
    ensures EndsAt(s, SkipSpace(s, 0), Strip(s))
  {
    var j := |s| - |LStrip(s)|;
    assert StripsTo(s, j, Strip(s));
  }

  /** When the last character `int()` keeps is not an information
      separator, what it keeps ends on a non-whitespace character and is
      followed by whitespace only. */
  lemma IntStripEndsAt(s: string)
    requires var r := IntStrip(s); |r| == 0 || !InfoSeparator(r[|r| - 1])
    ensures EndsAt(s, SkipIntSpace(s, 0), IntStrip(s))
  {
  }

  /** Two slices of `s` from `i`, each ending on a non-whitespace character
      and followed by whitespace only, are the same. */
  lemma TrimmedSliceUnique(s: string, i: nat, t: string, r: string)
    requires EndsAt(s, i, t) && EndsAt(s, i, r)
    ensures r == t
  {
    assert |t| == 0 || s[i + |t| - 1] == t[|t| - 1];
    assert |r| == 0 || s[i + |r| - 1] == r[|r| - 1];
    TrimmedSliceLength(s, i, |t|, |r|);
    TrimmedSliceLength(s, i, |r|, |t|);
  }

  /** A slice `s[i..i + a]` that ends on a non-whitespace character is no
      longer than one of the same start followed only by whitespace. */
  lemma TrimmedSliceLength(s: string, i: nat, a: nat, b: nat)
    requires i + a <= |s| && i + b <= |s|
    requires a == 0 || !IsSpace(s[i + a - 1])
    requires forall k :: i + b <= k < |s| ==> IsSpace(s[k])
    ensures a <= b
  {
  }

  /** The blanks `int()` accepts and refuses: a leading file separator
      U+001C is refused, a leading next-line U+0085 and ordinary spaces
      are skipped. */
  lemma IntBlanks()
    ensures ParseInt("\U{1c}2") == None
    ensures ParseInt("\U{85}2") == Some(2)
    ensures ParseInt(" -7\n") == Some(-7)
  {
    assert IntStrip("\U{1c}2") == "\U{1c}2";
    assert IntStrip("\U{85}2") == "2";
    assert SkipIntSpace(" -7\n", 0) == 1;
    assert SkipIntSpaceBack(" -7\n", 4) == 3;
    assert IntStrip(" -7\n") == "-7";
    assert "-7"[1..] == "7";
    assert GroupValue("7") == 7;
  }

  /** The decimal digits of `n`, most significant first, no leading zero. */
  function NatDigits(n: nat): (r: string)
    ensures |r| > 0
    ensures forall i :: 0 <= i < |r| ==> IsDigit(r[i])
    ensures |r| > 1 ==> r[0] != '0'
  {
    if n < 10 then [DigitChar(n)] else NatDigits(n / 10) + [DigitChar(n % 10)]
  }

  /** The decimal rendering of `n`, as `str(n)` writes it within the digit
      cap: the reference the parser is checked against. */
  function Show(n: int): (r: string)
    ensures |r| > 0 && IsDigit(r[|r| - 1])
    ensures (r[0] == '-') == (n < 0)
  {
    if n < 0 then "-" + NatDigits(-n) else NatDigits(n)
  }

  lemma {:induction false} GroupValueOfDigits(n: nat)
    ensures DigitGroup(NatDigits(n))
    ensures GroupValue(NatDigits(n)) == n
  {
    var d := NatDigits(n);
    if n >= 10 {
      GroupValueOfDigits(n / 10);
      assert d[..|d| - 1] == NatDigits(n / 10);
    }
  }

  lemma ShowTrimmed(n: int)
    ensures Trimmed(Show(n))
  {
    var s := Show(n);
    assert s[0] == '-' || IsDigit(s[0]);
  }

  /** A group made of digits only counts every character. */
  lemma {:induction false} DigitCountOfDigits(d: string)
    requires forall i :: 0 <= i < |d| ==> IsDigit(d[i])
    ensures DigitCount(d) == |d|
  {
    if |d| > 0 {
      DigitCountOfDigits(d[..|d| - 1]);
    }
  }

  /** `int(str(n)) == n`: the integer parser reads back the decimal
      rendering of every integer within the digit cap. */
  lemma {:induction false} ParseShow(n: int)
    requires |NatDigits(if n < 0 then -n else n)| <= MaxStrDigits
    ensures ParseInt(Show(n)) == Some(n)
  {
    var s := Show(n);
    ShowTrimmed(n);
    IntStripOfTrimmed(s);
    if n < 0 {
      ConvertibleDigits(-n);
      assert s[1..] == NatDigits(-n);
    } else {
      ConvertibleDigits(n);
    }
  }

  /** The rendering of a natural number within the digit cap converts back
      to it. */
  lemma ConvertibleDigits(n: nat)
    requires |NatDigits(n)| <= MaxStrDigits
    ensures Convertible(NatDigits(n)) && GroupValue(NatDigits(n)) == n
  {
    GroupValueOfDigits(n);
    DigitCountOfDigits(NatDigits(n));
  }
}
