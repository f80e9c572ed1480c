/** String operations the decoder relies on, with Python's semantics:
    `str.endswith`, `os.path.basename` (POSIX), `str.split` on one character,
    `str.replace(pattern, '')`, `str(n)` for a natural number and `int(text)`. */
module Text {
  import opened Faults

  predicate StartsWith(s: string, prefix: string) {
    |prefix| <= |s| && s[..|prefix|] == prefix
  }

  /** Python's `s.endswith(suffix)`. */
  predicate EndsWith(s: string, suffix: string) {
    |suffix| <= |s| && s[|s| - |suffix|..] == suffix
  }

  /** `posixpath.basename(path)`: what follows the last '/'. */
  function Basename(path: string): (b: string)
    ensures EndsWith(path, b) && '/' !in b
    ensures |b| < |path| ==> path[|path| - |b| - 1] == '/'
  {
    if |path| == 0 || path[|path| - 1] == '/' then ""
    else
      var init := Basename(path[..|path| - 1]);
      assert path[..|path| - 1][|path| - 1 - |init|..] == init;
      init + [path[|path| - 1]]
  }

  /** For an extension without '/', testing the basename and testing the whole
      path give the same answer. */
  lemma {:induction false} BasenameEndsWith(path: string, ext: string)
    requires '/' !in ext
    ensures EndsWith(Basename(path), ext) <==> EndsWith(path, ext)
  {
    var b := Basename(path);
    if EndsWith(b, ext) {
      assert path[|path| - |ext|..] == b[|b| - |ext|..];
    }
    if EndsWith(path, ext) && |ext| > |b| {
      assert false;
    }
    if EndsWith(path, ext) && |ext| <= |b| {
      assert b[|b| - |ext|..] == path[|path| - |ext|..];
    }
  }

  /** Number of occurrences of `c` in `s`. */
  function Count(s: string, c: char): nat {
    if |s| == 0 then 0
    else Count(s[..|s| - 1], c) + (if s[|s| - 1] == c then 1 else 0)
  }

  lemma {:induction false} CountZero(s: string, c: char)
    ensures Count(s, c) == 0 <==> c !in s
  {
    if |s| > 0 {
      CountZero(s[..|s| - 1], c);
      assert s == s[..|s| - 1] + [s[|s| - 1]];
    }
  }

  /** The parts joined back with the separator between them. */
  function Join(parts: seq<string>, sep: char): string
    requires |parts| > 0
  {
    if |parts| == 1 then parts[0]
    else Join(parts[..|parts| - 1], sep) + [sep] + parts[|parts| - 1]
  }

  /** Python's `s.split(sep)` for a one-character separator: one part more
      than there are separators, none of the parts holding a separator, and
      joining them back gives `s`. */
  function Split(s: string, sep: char): (parts: seq<string>)
    ensures |parts| == Count(s, sep) + 1
    ensures forall i :: 0 <= i < |parts| ==> sep !in parts[i]
    ensures Join(parts, sep) == s
  {
    if |s| == 0 then [""]
    else
      var init := Split(s[..|s| - 1], sep);
      var c := s[|s| - 1];
      assert s == s[..|s| - 1] + [c];
      if c == sep then
        var parts := init + [""];
        assert parts[..|parts| - 1] == init;
        parts
      else
        var k := |init| - 1;
        var parts := init[..k] + [init[k] + [c]];
        if k == 0 then
          parts
        else
          assert parts[..k] == init[..k];
          assert init == init[..k] + [init[k]];
          assert Join(init, sep) == Join(init[..k], sep) + [sep] + init[k];
          parts
  }

  /** Python's `s.replace(pattern, '')`: occurrences are removed left to
      right, without overlapping. */
  function RemoveAll(s: string, pattern: string): (r: string)
    requires |pattern| > 0
    ensures r == s || |r| <= |s| - |pattern|
    ensures |s| < |pattern| ==> r == s
    decreases |s|
  {
    if |s| < |pattern| then s
    else if s[..|pattern|] == pattern then RemoveAll(s[|pattern|..], pattern)
    else
      var rest := RemoveAll(s[1..], pattern);
      assert rest == s[1..] ==> [s[0]] + rest == s;
      [s[0]] + rest
  }

  predicate OccursAt(s: string, pattern: string, k: int) {
    0 <= k && k + |pattern| <= |s| && s[k..k + |pattern|] == pattern
  }

  /** No proper suffix of `pattern` is also a prefix of it, so two occurrences
      can never overlap. */
  predicate BorderFree(pattern: string) {
    forall k :: 0 < k < |pattern| ==> pattern[k..] != pattern[..|pattern| - k]
  }

  /** An occurrence in the tail of a text is one in the text, a place later. */
  lemma {:induction false} OccursInTail(s: string, pattern: string, k: int)
    requires |s| > 0
    ensures OccursAt(s[1..], pattern, k) ==> OccursAt(s, pattern, k + 1)
  {
    if OccursAt(s[1..], pattern, k) {
      assert s[1..][k..k + |pattern|] == s[k + 1..k + 1 + |pattern|];
    }
  }

  /** Removing a pattern that does not occur changes nothing. */
  lemma {:induction false} RemoveAllAbsent(s: string, pattern: string)
    requires |pattern| > 0
    requires forall k :: !OccursAt(s, pattern, k)
    ensures RemoveAll(s, pattern) == s
  {
    if |s| >= |pattern| {
      assert !OccursAt(s, pattern, 0);
      assert s[..|pattern|] != pattern;
      forall k ensures !OccursAt(s[1..], pattern, k) {
        OccursInTail(s, pattern, k);
      }
      RemoveAllAbsent(s[1..], pattern);
      assert s == [s[0]] + s[1..];
    }
  }

  /** A border-free pattern appended once to a text that does not contain it
      is exactly what `replace` takes away. */
  lemma {:induction false} RemoveAllAppended(x: string, pattern: string)
    requires |pattern| > 0 && BorderFree(pattern)
    requires forall k :: !OccursAt(x, pattern, k)
    ensures RemoveAll(x + pattern, pattern) == x
  {
    var s := x + pattern;
    if |x| == 0 {
      assert s[..|pattern|] == pattern;
      assert s[|pattern|..] == "";
    } else {
      assert x == [x[0]] + x[1..];
      if |x| >= |pattern| {
        assert x[0..|pattern|] == s[..|pattern|];
        assert !OccursAt(x, pattern, 0);
      } else {
        var k := |x|;
        assert s[..|pattern|][k..] == pattern[..|pattern| - k];
        assert pattern[k..] != pattern[..|pattern| - k];
      }
      assert s[..|pattern|] != pattern;
      assert s[1..] == x[1..] + pattern;
      forall k ensures !OccursAt(x[1..], pattern, k) {
        OccursInTail(x, pattern, k);
      }
      RemoveAllAppended(x[1..], pattern);
      assert RemoveAll(s, pattern) == [x[0]] + RemoveAll(s[1..], pattern);
    }
  }

  predicate IsDigit(c: char) { '0' <= c <= '9' }

  predicate AllDigits(s: string) { forall i :: 0 <= i < |s| ==> IsDigit(s[i]) }

  function DigitChar(d: nat): (c: char)
    requires d < 10
    ensures IsDigit(c)
  {
    ('0' as int + d) as char
  }

  /** Value of a string of decimal digits, most significant first. */
  function DigitsValue(s: string): nat
    requires AllDigits(s)
  {
    if |s| == 0 then 0
    else DigitsValue(s[..|s| - 1]) * 10 + (s[|s| - 1] as int - '0' as int)
  }

  /** Python's `str(n)` for a natural number. */
  function NatToString(n: nat): (s: string)
    ensures |s| > 0 && AllDigits(s)
  {
    if n < 10 then [DigitChar(n)] else NatToString(n / 10) + [DigitChar(n % 10)]
  }

  lemma {:induction false} DigitsValueOfNatToString(n: nat)
    ensures DigitsValue(NatToString(n)) == n
  {
    var s := NatToString(n);
    if n >= 10 {
      DigitsValueOfNatToString(n / 10);
      assert s[..|s| - 1] == NatToString(n / 10);
    }
  }

  /** Different numbers are written differently, so `str(i)` identifies the segment. */
  lemma {:induction false} NatToStringInjective(m: nat, n: nat)
    requires NatToString(m) == NatToString(n)
    ensures m == n
  {
    DigitsValueOfNatToString(m);
    DigitsValueOfNatToString(n);
  }

  /** The whitespace `int()` strips around its argument (the ASCII part of it). */
  predicate IsSpace(c: char) { 9 <= c as int <= 13 || 28 <= c as int <= 32 }

  function TrimStart(s: string): string {
    if |s| > 0 && IsSpace(s[0]) then TrimStart(s[1..]) else s
  }

  function TrimEnd(s: string): string {
    if |s| > 0 && IsSpace(s[|s| - 1]) then TrimEnd(s[..|s| - 1]) else s
  }

  /** Digits, optionally grouped by single underscores, as in `1_000`. */
  predicate IsDigitGroups(t: string) {
    && |t| > 0 && IsDigit(t[0]) && IsDigit(t[|t| - 1])
    && (forall i :: 0 <= i < |t| ==> IsDigit(t[i]) || t[i] == '_')
    && (forall i :: 0 <= i < |t| - 1 ==> t[i] == '_' ==> t[i + 1] != '_')
  }

  function DropUnderscores(t: string): (d: string)
    requires forall i :: 0 <= i < |t| ==> IsDigit(t[i]) || t[i] == '_'
    ensures AllDigits(d)
    ensures AllDigits(t) ==> d == t
  {
    if |t| == 0 then ""
    else (if t[0] == '_' then "" else [t[0]]) + DropUnderscores(t[1..])
  }

  /** Python's `int(text)` in base 10: surrounding whitespace, an optional
      sign, then digit groups; anything else is refused. */
  function ParseInt(text: string): (r: Option<int>)
    ensures |text| > 0 && AllDigits(text) ==> r == Some(DigitsValue(text))
    ensures |text| > 1 && text[0] == '-' && AllDigits(text[1..]) ==> r == Some(0 - DigitsValue(text[1..]))
  {
    var t := TrimEnd(TrimStart(text));
    assert |text| > 0 && AllDigits(text) ==> !IsSpace(text[0]) && !IsSpace(text[|text| - 1]);
    assert |text| > 1 && text[0] == '-' && AllDigits(text[1..]) ==>
             !IsSpace(text[0]) && text[|text| - 1] == text[1..][|text| - 2] && !IsSpace(text[|text| - 1]);
    if |t| > 0 && (t[0] == '+' || t[0] == '-') then
      var body := t[1..];
      if IsDigitGroups(body) then
        var v := DigitsValue(DropUnderscores(body));
        var signed: int := if t[0] == '-' then -(v as int) else v;
        Some(signed)
      else None
    else if IsDigitGroups(t) then Some(DigitsValue(DropUnderscores(t)))
    else None
  }

  /** `int(str(n)) == n`. */
  lemma {:induction false} ParseIntOfNatToString(n: nat)
    ensures ParseInt(NatToString(n)) == Some(n)
  {
    var s := NatToString(n);
    assert !IsSpace(s[0]) && !IsSpace(s[|s| - 1]);
    assert TrimStart(s) == s;
    assert TrimEnd(s) == s;
    assert IsDigitGroups(s);
    DigitsValueOfNatToString(n);
  }

  /** `int('-' + str(n)) == -n`. */
  lemma {:induction false} ParseIntOfNegative(n: nat)
    ensures ParseInt("-" + NatToString(n)) == Some(0 - n)
  {
    var s := "-" + NatToString(n);
    assert s[1..] == NatToString(n);
    assert !IsSpace(s[0]) && !IsSpace(s[|s| - 1]);
    assert TrimStart(s) == s;
    assert TrimEnd(s) == s;
    assert IsDigitGroups(s[1..]);
    DigitsValueOfNatToString(n);
  }
}
