/** The few Python built-ins the application leans on, given a meaning in Dafny:
    `None`, `str.isspace`, `str.strip`, `int(text)` and `str(n)` for integers. */
module PyBuiltins {

  /** A value that may be Python's `None`. */
  datatype Option<T> = None | Some(value: T)

  /** How an f-string renders an optional string: `None` becomes the text "None". */
  function Show(s: Option<string>): string
  {
    match s
    case None => "None"
    case Some(v) => v
  }

  /** The characters for which Python's `str.isspace()` holds. */
  predicate IsSpace(c: char)
  {
    c == ' ' || '\t' <= c <= '\r' || '\U{1c}' <= c <= '\U{1f}' || c == '\U{85}' || c == '\U{a0}'
    || c == '\U{1680}' || '\U{2000}' <= c <= '\U{200a}' || c == '\U{2028}' || c == '\U{2029}'
    || c == '\U{202f}' || c == '\U{205f}' || c == '\U{3000}'
  }

  /** The characters `int()` skips around its digits. CPython first turns every non-ASCII
      whitespace character into a plain space and leaves ASCII alone, then skips only the six
      ASCII blanks; so the separators U+001C..U+001F, which `str.isspace()` accepts, stay and make
      the conversion fail. */
  predicate IsIntSpace(c: char)
  {
    if c < '\U{80}' then c == ' ' || '\t' <= c <= '\r' else IsSpace(c)
  }

  /** What `str.strip()` removes, as a set (no whitespace character lies above U+3000). */
  const STR_SPACE: set<char> := set c: char | c <= '\U{3000}' && IsSpace(c)

  /** What `int()` skips, as a set. */
  const INT_SPACE: set<char> := set c: char | c <= '\U{3000}' && IsIntSpace(c)

  /** Removes leading whitespace. */
  function StripLeft(blank: set<char>, s: string): (r: string)
    ensures |r| <= |s| && r == s[|s| - |r|..]
    ensures forall i :: 0 <= i < |s| - |r| ==> s[i] in blank
    ensures r == [] || r[0] !in blank
  {
    if s != [] && s[0] in blank then StripLeft(blank, s[1..]) else s
  }

  /** Removes trailing whitespace. */
  function StripRight(blank: set<char>, s: string): (r: string)
    ensures |r| <= |s| && r == s[..|r|]
    ensures forall i :: |r| <= i < |s| ==> s[i] in blank
    ensures r == [] || r[|r| - 1] !in blank
  {
    if s != [] && s[|s| - 1] in blank then StripRight(blank, s[..|s| - 1]) else s
  }

  /** Whitespace cut away on both sides: Python's `s.strip()` with `STR_SPACE`, and the
      whitespace `int()` ignores with `INT_SPACE`. */
  function Strip(blank: set<char>, s: string): (r: string)
    ensures |r| <= |s|
    ensures r == [] || (r[0] !in blank && r[|r| - 1] !in blank)
  {
    StripRight(blank, StripLeft(blank, s))
  }

  /** Every character of `s[lo..hi]` is whitespace. */
  predicate AllBlank(blank: set<char>, s: string, lo: nat, hi: nat)
    requires lo <= hi <= |s|
  {
    forall k :: lo <= k < hi ==> s[k] in blank
  }

  /** Stripping keeps an infix of the text and cuts only whitespace in front of it and behind
      it; together with `Strip`'s own contract this pins the result down. */
  lemma StripCutsOnlySpace(blank: set<char>, s: string)
    ensures exists i, j :: 0 <= i <= j <= |s| && Strip(blank, s) == s[i..j] && AllBlank(blank, s, 0, i) && AllBlank(blank, s, j, |s|)
  {
    var left := StripLeft(blank, s);
    var r := StripRight(blank, left);
    var i := |s| - |left|;
    var j := i + |r|;
    assert left == s[i..] && r == left[..|r|];
    assert Strip(blank, s) == r == s[i..j];
    TrailingBlanksOfSuffix(blank, s, i, |r|);
  }

  /** The whitespace at the end of a suffix `s[i..]` is whitespace at the end of `s`. */
  lemma TrailingBlanksOfSuffix(blank: set<char>, s: string, i: nat, n: nat)
    requires i + n <= |s| && forall k :: n <= k < |s| - i ==> s[i..][k] in blank
    ensures AllBlank(blank, s, i + n, |s|)
  {
    forall k | i + n <= k < |s|
      ensures s[k] in blank
    {
      assert s[k] == s[i..][k - i];
    }
  }

  /** Stripping changes nothing when the text neither starts nor ends with whitespace. */
  lemma StripUnchanged(blank: set<char>, s: string)
    requires s == [] || (s[0] !in blank && s[|s| - 1] !in blank)
    ensures Strip(blank, s) == s
  {
    assert StripLeft(blank, s) == s;
    assert StripRight(blank, s) == s;
  }

  predicate IsDigit(c: char)
  {
    '0' <= c <= '9'
  }

  /** The digit part `int()` accepts in base 10: ASCII digits, with single underscores allowed
      between two digits ("1_000"), never first, last or doubled. */
  predicate IsDigitGroup(s: string)
  {
    && s != []
    && IsDigit(s[0])
    && DigitChars(s)
    && forall i :: 0 <= i < |s| && s[i] == '_' ==> i + 1 < |s| && IsDigit(s[i + 1])
  }

  predicate DigitChars(s: string)
  {
    forall i :: 0 <= i < |s| ==> IsDigit(s[i]) || s[i] == '_'
  }

  /** The value of a run of digits and underscores, read from the left; underscores are skipped. */
  function DigitsValue(s: string): nat
    requires DigitChars(s)
  {
    if s == [] then 0
    else
      var c := s[|s| - 1];
      assert DigitChars(s[..|s| - 1]);
      if c == '_' then DigitsValue(s[..|s| - 1])
      else DigitsValue(s[..|s| - 1]) * 10 + (c as int - '0' as int)
  }

  /** CPython's default limit on the digits of an integer converted from or to decimal text
      (`sys.get_int_max_str_digits()`); longer conversions raise `ValueError`. */
  const MAX_STR_DIGITS := 4300

  /** The number of digits in a run of digits and underscores; the limit counts these only. */
  function DigitCount(s: string): (n: nat)
    ensures n <= |s|
  {
    if s == [] then 0
    else DigitCount(s[..|s| - 1]) + (if s[|s| - 1] == '_' then 0 else 1)
  }

  /** A digit group short enough for `int()` to convert. */
  predicate Convertible(s: string)
  {
    IsDigitGroup(s) && DigitCount(s) <= MAX_STR_DIGITS
  }

  /** Python's `int(text)` in base 10: the whitespace `int()` skips is ignored on both sides,
      then one optional sign and a digit group of at most `MAX_STR_DIGITS` digits. `None` stands
      for the `ValueError` it raises on anything else. Whatever it returns, `str()` can write
      back under the same limit. */
  function ParseInt(text: string): (r: Option<int>)
    ensures r.Some? ==> |Digits(Abs(r.value))| <= MAX_STR_DIGITS
  {
    var t := Strip(INT_SPACE, text);
    ParseStrippedWithinLimit(t);
    ParseStripped(t)
  }

  /** The sign and digit group of a text already stripped of whitespace. */
  function ParseStripped(t: string): Option<int>
  {
    if t != [] && (t[0] == '+' || t[0] == '-') then
      if Convertible(t[1..]) then
        var n: int := DigitsValue(t[1..]);
        Some(if t[0] == '-' then -n else n)
      else None
    else if Convertible(t) then Some(DigitsValue(t))
    else None
  }

  /** The decimal digits of a natural number, most significant first, as `str(n)` writes them. */
  function Digits(n: nat): (s: string)
    ensures s != [] && forall i :: 0 <= i < |s| ==> IsDigit(s[i])
  {
    var d := ((n % 10) + '0' as int) as char;
    if n < 10 then [d] else Digits(n / 10) + [d]
  }

  /** Python's `str(n)` for an integer. */
  function FormatInt(n: int): (s: string)
    ensures s != [] && IsDigit(s[|s| - 1])
    ensures s[0] == '-' || IsDigit(s[0])
  {
    if n < 0 then "-" + Digits(-n) else Digits(n)
  }

  /** Reading back the digits of `n` yields `n`. */
  lemma {:induction false} DigitsValueOfDigits(n: nat)
    ensures IsDigitGroup(Digits(n)) && DigitsValue(Digits(n)) == n
  {
    var s := Digits(n);
    if n >= 10 {
      DigitsValueOfDigits(n / 10);
      assert s[..|s| - 1] == Digits(n / 10);
    }
  }

  /** Appending a whitespace character to a text and stripping it from the left gives what
      stripping the text alone gives, with the character still at the end unless nothing else
      is left. */
  lemma {:induction false} StripLeftAppend(blank: set<char>, t: string, c: char)
    requires c in blank
    ensures StripLeft(blank, t + [c]) == if StripLeft(blank, t) == [] then [] else StripLeft(blank, t) + [c]
  {
    if t == [] {
      assert t + [c] == [c] && [c][1..] == [];
    } else if t[0] in blank {
      assert (t + [c])[0] == t[0] && (t + [c])[1..] == t[1..] + [c];
      StripLeftAppend(blank, t[1..], c);
    } else {
      assert (t + [c])[0] == t[0];
    }
  }

  /** Stripping ignores one more whitespace character in front. */
  lemma StripIgnoresLeadingSpace(blank: set<char>, t: string, c: char)
    requires c in blank
    ensures Strip(blank, [c] + t) == Strip(blank, t)
  {
    assert ([c] + t)[1..] == t;
    assert StripLeft(blank, [c] + t) == StripLeft(blank, t);
  }

  /** Stripping ignores one more whitespace character at the end. */
  lemma StripIgnoresTrailingSpace(blank: set<char>, t: string, c: char)
    requires c in blank
    ensures Strip(blank, t + [c]) == Strip(blank, t)
  {
    StripLeftAppend(blank, t, c);
    var l := StripLeft(blank, t);
    if l != [] {
      assert (l + [c])[..|l + [c]| - 1] == l;
      assert StripRight(blank, l + [c]) == StripRight(blank, l);
    }
  }

  /** `int()` ignores one more character of the set it skips on either side of the text. */
  lemma ParseIntIgnoresSpace(t: string, c: char)
    requires IsIntSpace(c)
    ensures ParseInt([c] + t) == ParseInt(t)
    ensures ParseInt(t + [c]) == ParseInt(t)
  {
    StripIgnoresLeadingSpace(INT_SPACE, t, c);
    StripIgnoresTrailingSpace(INT_SPACE, t, c);
  }

  /** The magnitude of `n`, whose digits `str(n)` writes. */
  function Abs(n: int): nat
  {
    if n < 0 then -n else n
  }

  /** A run of plain digits has as many digits as characters. */
  lemma {:induction false} DigitCountOfDigits(s: string)
    requires forall i :: 0 <= i < |s| ==> IsDigit(s[i])
    ensures DigitCount(s) == |s|
  {
    if s != [] {
      DigitCountOfDigits(s[..|s| - 1]);
    }
  }

  /** `int(str(n)) == n` for every `n` that `str` can write, that is with at most
      `MAX_STR_DIGITS` digits: the parser accepts what the formatter writes and recovers it. */
  lemma ParseFormatInt(n: int)
    requires |Digits(Abs(n))| <= MAX_STR_DIGITS
    ensures ParseInt(FormatInt(n)) == Some(n)
  {
    var s := FormatInt(n);
    StripUnchanged(INT_SPACE, s);
    assert ParseInt(s) == ParseStripped(s);
    var d := Digits(Abs(n));
    DigitsValueOfDigits(Abs(n));
    DigitCountOfDigits(d);
    SignedGroup(d);
    if n < 0 {
      assert s == "-" + d;
    } else {
      assert s == d;
    }
  }

  lemma SignedGroup(d: string)
    requires Convertible(d)
    ensures ParseStripped(d) == Some(DigitsValue(d))
    ensures ParseStripped("-" + d) == Some(-(DigitsValue(d) as int))
  {
    assert ("-" + d)[1..] == d;
  }

  function Pow10(k: nat): (p: nat)
    ensures p >= 1
  {
    if k == 0 then 1 else 10 * Pow10(k - 1)
  }

  /** A run of `k` digits is worth less than `10^k`. */
  lemma {:induction false} DigitsValueBelow(s: string)
    requires DigitChars(s)
    ensures DigitsValue(s) < Pow10(DigitCount(s))
  {
    if s != [] {
      var init := s[..|s| - 1];
      assert DigitChars(init);
      DigitsValueBelow(init);
      if s[|s| - 1] != '_' {
        var v, p := DigitsValue(init), Pow10(DigitCount(init));
        assert DigitsValue(s) <= v * 10 + 9;
        assert v * 10 + 9 < p * 10 by { assert v + 1 <= p; }
      }
    }
  }

  /** A number below `10^k` has at most `k` decimal digits. */
  lemma {:induction false} DigitsAtMost(n: nat, k: nat)
    requires 1 <= k && n < Pow10(k)
    ensures |Digits(n)| <= k
  {
    if n >= 10 {
      assert k != 1;
      DigitsAtMost(n / 10, k - 1);
    }
  }

  /** A number read from an accepted sign and digit group has at most `MAX_STR_DIGITS` digits. */
  lemma ParseStrippedWithinLimit(t: string)
    ensures ParseStripped(t).Some? ==> |Digits(Abs(ParseStripped(t).value))| <= MAX_STR_DIGITS
  {
    var signed := t != [] && (t[0] == '+' || t[0] == '-');
    var g := if signed then t[1..] else t;
    if Convertible(g) {
      assert g[|g| - 1] != '_';
      assert DigitCount(g) >= 1;
      DigitsValueBelow(g);
      DigitsAtMost(DigitsValue(g), DigitCount(g));
    }
  }

  /** Every number `int()` accepts is written by `str()` as a text `int()` reads back to it. */
  lemma ParseIntCanonical(text: string)
    ensures ParseInt(text).Some? ==> ParseInt(FormatInt(ParseInt(text).value)) == ParseInt(text)
  {
    if ParseInt(text).Some? {
      ParseFormatInt(ParseInt(text).value);
    }
  }

  /** A digit group longer than `MAX_STR_DIGITS` digits is refused, whatever its value. */
  lemma TooManyDigits(t: string)
    requires IsDigitGroup(t) && DigitCount(t) > MAX_STR_DIGITS
    ensures ParseInt(t) == None
  {
    var last := |t| - 1;
    assert t[last] != '_';
    StripUnchanged(INT_SPACE, t);
    assert !Convertible(t) && t[0] != '+' && t[0] != '-';
  }

  /** The information separator U+001C is whitespace to `str.strip()`, which cuts it off. */
  lemma SeparatorStrippedByStr()
    ensures Strip(STR_SPACE, "\U{1c}5") == "5"
  {
    var t := "\U{1c}5";
    assert t[0] in STR_SPACE;
    assert t[1..] == "5";
    StripUnchanged(STR_SPACE, "5");
  }

  /** The same separator is not whitespace to `int()`, which refuses the text as a number. */
  lemma SeparatorRefusedByInt()
    ensures ParseInt("\U{1c}5") == None
  {
    var t := "\U{1c}5";
    assert t[0] !in INT_SPACE;
    StripUnchanged(INT_SPACE, t);
    assert !IsDigit(t[0]);
  }

  /** Non-ASCII whitespace such as the no-break space U+00A0 is skipped by `int()`. */
  lemma NoBreakSpaceSkippedByInt()
    ensures ParseInt("\U{a0}5") == Some(5)
  {
    var t := "\U{a0}5";
    assert t[0] in INT_SPACE;
    assert t[1..] == "5";
    StripUnchanged(INT_SPACE, "5");
    assert Strip(INT_SPACE, t) == "5";
    assert DigitsValue("5") == 5 by { assert "5"[..0] == []; }
  }
}
