/**
 * The string handling the MapFile reader and writer rely on: PHP's trim(), ASCII case
 * folding (the `/i` flag of the line patterns and strtolower), the shapes of the line
 * patterns (`^KEYWORD$`, `^END( # KEYWORD)?$`, `^KEYWORD (.+)$`, `^KEYWORD "(.+)"$`),
 * and decimal numerals.
 *
 * Every pattern is applied to a line that has already been trimmed, so the PCRE rule
 * that `$` may also match before a final newline never comes into play; `.` matches any
 * character except a newline.
 */
module Text {
  import opened Wrappers

  // ---------------------------------------------------------------------------
  // trim()
  // ---------------------------------------------------------------------------

  /** The characters PHP's trim() strips by default: space, tab, LF, CR, NUL and vertical tab. */
  predicate IsTrimChar(c: char)
  {
    c == ' ' || c == '\t' || c == '\n' || c == '\r' || c == '\0' || c == '\U{000B}'
  }

  /** Where the text starts: the first position at or after `i` that is not a trim character. */
  function TextStart(s: string, i: nat): (n: nat)
    requires i <= |s|
    ensures i <= n <= |s|
    decreases |s| - i
  {
    if i < |s| && IsTrimChar(s[i]) then TextStart(s, i + 1) else i
  }

  /** Where the text ends: the end of the last character before `j` that is not a trim character. */
  function TextEnd(s: string, j: nat): (n: nat)
    requires j <= |s|
    ensures n <= j
  {
    if j > 0 && IsTrimChar(s[j - 1]) then TextEnd(s, j - 1) else j
  }

  lemma {:induction false} TextStartSkipsTrim(s: string, i: nat)
    requires i <= |s|
    ensures forall k :: i <= k < TextStart(s, i) ==> IsTrimChar(s[k])
    ensures TextStart(s, i) == |s| || !IsTrimChar(s[TextStart(s, i)])
    decreases |s| - i
  {
    if i < |s| && IsTrimChar(s[i]) {
      TextStartSkipsTrim(s, i + 1);
    }
  }

  lemma {:induction false} TextEndSkipsTrim(s: string, j: nat)
    requires j <= |s|
    ensures forall k :: TextEnd(s, j) <= k < j ==> IsTrimChar(s[k])
    ensures TextEnd(s, j) == 0 || !IsTrimChar(s[TextEnd(s, j) - 1])
  {
    if j > 0 && IsTrimChar(s[j - 1]) {
      TextEndSkipsTrim(s, j - 1);
    }
  }

  function TrimStart(s: string): string
  {
    s[TextStart(s, 0)..]
  }

  function TrimEnd(s: string): string
  {
    s[..TextEnd(s, |s|)]
  }

  /** PHP trim(): strips trim characters from both ends and keeps the middle untouched. */
  function Trim(s: string): (r: string)
    ensures r == [] || (!IsTrimChar(r[0]) && !IsTrimChar(r[|r| - 1]))
    ensures |r| <= |s|
  {
    TextStartSkipsTrim(s, 0);
    TextEndSkipsTrim(TrimStart(s), |TrimStart(s)|);
    TrimEnd(TrimStart(s))
  }

  /**
   * trim() removes only trim characters, and only from the two ends: the result is a
   * contiguous middle part of the input, and everything cut off before and after it is
   * a trim character.
   */
  lemma TrimKeepsMiddle(s: string)
    ensures exists a, b ::
              && 0 <= a <= b <= |s|
              && Trim(s) == s[a..b]
              && (forall k :: 0 <= k < a ==> IsTrimChar(s[k]))
              && (forall k :: b <= k < |s| ==> IsTrimChar(s[k]))
  {
    var a := TextStart(s, 0);
    var t := s[a..];
    var e := TextEnd(t, |t|);
    TextStartSkipsTrim(s, 0);
    TextEndSkipsTrim(t, |t|);
    var b := a + e;
    assert Trim(s) == t[..e] == s[a..b];
    forall k | b <= k < |s|
      ensures IsTrimChar(s[k])
    {
      assert s[k] == t[k - a];
    }
  }

  /** A trimmed string is left alone by trim(), so trimming twice is trimming once. */
  lemma TrimIdempotent(s: string)
    ensures Trim(Trim(s)) == Trim(s)
  {
    var t := Trim(s);
    assert TextStart(t, 0) == 0;
    assert TrimStart(t) == t[0..] == t;
    assert TextEnd(t, |t|) == |t|;
    assert TrimEnd(t) == t[..|t|] == t;
  }

  function TrimAll(lines: seq<string>): (r: seq<string>)
    ensures |r| == |lines|
    ensures forall i :: 0 <= i < |lines| ==> r[i] == Trim(lines[i])
  {
    seq(|lines|, i requires 0 <= i < |lines| => Trim(lines[i]))
  }

  // ---------------------------------------------------------------------------
  // ASCII case folding
  // ---------------------------------------------------------------------------

  function UpperChar(c: char): char
  {
    if 'a' <= c <= 'z' then (c as int - 32) as char else c
  }

  function LowerChar(c: char): char
  {
    if 'A' <= c <= 'Z' then (c as int + 32) as char else c
  }

  function Upper(s: string): (r: string)
    ensures |r| == |s|
  {
    seq(|s|, i requires 0 <= i < |s| => UpperChar(s[i]))
  }

  /** PHP strtolower(): ASCII letters are lowered, every other character is kept. */
  function Lower(s: string): (r: string)
    ensures |r| == |s|
    ensures forall i :: 0 <= i < |s| ==> r[i] == LowerChar(s[i])
    ensures forall i :: 0 <= i < |r| ==> !('A' <= r[i] <= 'Z')
  {
    seq(|s|, i requires 0 <= i < |s| => LowerChar(s[i]))
  }

  /** Equality under the `/i` flag (ASCII letters only). */
  predicate SameIgnoringCase(s: string, t: string)
  {
    Upper(s) == Upper(t)
  }

  // ---------------------------------------------------------------------------
  // Line patterns
  // ---------------------------------------------------------------------------

  /** `^KEYWORD$` with the `/i` flag. */
  predicate IsKeyword(line: string, keyword: string)
  {
    SameIgnoringCase(line, keyword)
  }

  /** `^END( # KEYWORD)?$` with the `/i` flag: a bare END closes any block. */
  predicate IsEnd(line: string, keyword: string)
  {
    SameIgnoringCase(line, "END") || SameIgnoringCase(line, "END # " + keyword)
  }

  predicate HasPrefixIgnoringCase(s: string, prefix: string)
  {
    |prefix| <= |s| && SameIgnoringCase(s[..|prefix|], prefix)
  }

  /** What a `(.+)` group may capture: at least one character, no newline. */
  predicate AnyChars(s: string)
  {
    |s| > 0 && '\n' !in s
  }

  /** `^PREFIX(.+)$`: the text after the prefix, e.g. `Rest(line, "STATUS ")`. */
  function Rest(line: string, prefix: string): (r: Option<string>)
    ensures r.Some? <==> HasPrefixIgnoringCase(line, prefix) && AnyChars(line[|prefix|..])
    ensures r.Some? ==> line == line[..|prefix|] + r.value
  {
    if HasPrefixIgnoringCase(line, prefix) && AnyChars(line[|prefix|..])
    then Some(line[|prefix|..])
    else None
  }

  /**
   * `^PREFIX"(.+)"$`: the text between the opening quote after the prefix and the
   * closing quote at the end of the line, e.g. `Quoted(line, "NAME ")`.
   */
  function Quoted(line: string, prefix: string): (r: Option<string>)
    ensures r.Some? ==> HasPrefixIgnoringCase(line, prefix) && AnyChars(r.value)
    ensures r.Some? ==> line == line[..|prefix|] + "\"" + r.value + "\""
  {
    var n := |prefix| + 1;
    if |line| > n && HasPrefixIgnoringCase(line, prefix) && line[n - 1] == '"'
       && line[|line| - 1] == '"' && AnyChars(line[n..|line| - 1])
    then Some(line[n..|line| - 1])
    else None
  }

  /** What `^PREFIX(.+)$` captures on a line built from the prefix and a value. */
  lemma RestOfBuilt(prefix: string, value: string)
    requires AnyChars(value)
    ensures Rest(prefix + value, prefix) == Some(value)
  {
    var line := prefix + value;
    assert line[..|prefix|] == prefix && line[|prefix|..] == value;
  }

  /** What `^PREFIX"(.+)"$` captures on a line built from the prefix and a quoted value. */
  lemma QuotedOfBuilt(prefix: string, value: string)
    requires AnyChars(value)
    ensures Quoted(prefix + "\"" + value + "\"", prefix) == Some(value)
  {
    var line := prefix + "\"" + value + "\"";
    assert line[..|prefix|] == prefix && line[|prefix|] == '"';
    assert line[|prefix| + 1..|line| - 1] == value;
  }

  /** A line that differs from the prefix, ignoring case, at position `i` does not start with it. */
  lemma PrefixDiffersAt(line: string, prefix: string, i: int)
    requires 0 <= i < |prefix| && i < |line| && UpperChar(line[i]) != UpperChar(prefix[i])
    ensures !HasPrefixIgnoringCase(line, prefix)
  {
    if |prefix| <= |line| {
      assert Upper(line[..|prefix|])[i] == UpperChar(line[i]);
    }
  }

  /** A line whose first character, upper-cased, is not the keyword's first. */
  lemma FirstCharDiffers(t: string, keyword: string)
    requires |t| > 0 && |keyword| > 0 && UpperChar(t[0]) != Upper(keyword)[0]
    ensures !SameIgnoringCase(t, keyword)
  {
    assert Upper(t)[0] == UpperChar(t[0]);
  }

  /** Two strings that differ, ignoring case, at position `i` are not the same keyword. */
  lemma CharDiffersAt(t: string, keyword: string, i: int)
    requires 0 <= i < |t| && i < |keyword| && UpperChar(t[i]) != UpperChar(keyword[i])
    ensures !SameIgnoringCase(t, keyword)
  {
    assert Upper(t)[i] == UpperChar(t[i]);
  }

  /** A line with a space in it is none of the one-word keywords, and not a bare END. */
  lemma SpacedLineIsNoKeyword(t: string, i: int, keyword: string)
    requires 0 <= i < |t| && t[i] == ' ' && ' ' !in keyword
    ensures !SameIgnoringCase(t, keyword)
  {
    if |t| == |keyword| {
      CharDiffersAt(t, keyword, i);
    }
  }

  /** A written line, indented by two spaces, trims to its text. */
  lemma TrimIndented(text: string)
    requires text != [] && !IsTrimChar(text[0]) && !IsTrimChar(text[|text| - 1])
    ensures Trim("  " + text) == text
  {
    TrimOfIndented("  ", text);
  }

  // ---------------------------------------------------------------------------
  // Decimal numerals
  // ---------------------------------------------------------------------------

  predicate IsDigit(c: char)
  {
    '0' <= c <= '9'
  }

  /** `[0-9]+` */
  predicate IsDigits(s: string)
  {
    |s| > 0 && forall i :: 0 <= i < |s| ==> IsDigit(s[i])
  }

  function DigitValue(c: char): nat
    requires IsDigit(c)
  {
    c as int - '0' as int
  }

  function DigitChar(d: nat): (c: char)
    requires d < 10
    ensures IsDigit(c) && DigitValue(c) == d
  {
    ('0' as int + d) as char
  }

  /** The value of a string of decimal digits. */
  function DigitsValue(s: string): nat
    requires forall i :: 0 <= i < |s| ==> IsDigit(s[i])
  {
    if s == [] then 0 else DigitsValue(s[..|s| - 1]) * 10 + DigitValue(s[|s| - 1])
  }

  /** The decimal text of a natural number, without leading zeros. */
  function NatToString(n: nat): (r: string)
    ensures IsDigits(r)
    ensures r[0] == '0' ==> n == 0 && r == "0"
  {
    if n < 10 then [DigitChar(n)] else NatToString(n / 10) + [DigitChar(n % 10)]
  }

  /** The decimal text PHP prints for an integer. */
  function IntToString(i: int): (r: string)
    ensures |r| > 0
    ensures (r[0] == '-') <==> i < 0
  {
    if i < 0 then "-" + NatToString(-i) else NatToString(i)
  }

  /** Reading back the digits of a natural number gives the number. */
  lemma {:induction false} NatToStringRoundTrip(n: nat)
    ensures DigitsValue(NatToString(n)) == n
  {
    if n >= 10 {
      NatToStringRoundTrip(n / 10);
      var s := NatToString(n);
      assert s[..|s| - 1] == NatToString(n / 10);
    }
  }

  /**
   * The integer a string stands for when PHP uses it as an array key: only a canonical
   * decimal integer ("0", or digits without a leading zero, optionally after a minus
   * sign) is turned into an integer key; every other string stays a string key.
   */
  function IntegerKey(s: string): (r: Option<int>)
    ensures r.Some? ==> |s| > 0 && (IsDigit(s[0]) || s[0] == '-')
    ensures r.Some? ==> s == IntToString(r.value)
  {
    if s == "0" then Some(0)
    else if IsDigits(s) && s[0] != '0' then
      CanonicalDigits(s, DigitsValue(s));
      Some(DigitsValue(s))
    else if |s| > 1 && s[0] == '-' && IsDigits(s[1..]) && s[1] != '0' then
      LeadingDigitsPositive(s[1..]);
      CanonicalDigits(s[1..], DigitsValue(s[1..]));
      assert s == "-" + s[1..];
      Some(-(DigitsValue(s[1..]) as int))
    else None
  }

  /** The text PHP prints for any integer is taken back as that integer key. */
  lemma IntegerKeyOfInt(n: int)
    ensures IntegerKey(IntToString(n)) == Some(n)
  {
    var s := IntToString(n);
    if n == 0 {
      assert s == "0";
    } else if n > 0 {
      NatToStringRoundTrip(n);
      assert s[0] != '0' && s != "0";
    } else {
      var t := NatToString(-n);
      NatToStringRoundTrip(-n);
      assert s == "-" + t && s[1..] == t && s[1] == t[0] != '0';
      assert !IsDigits(s) && s != "0";
    }
  }

  /** Digits without a leading zero are the canonical text of their value. */
  lemma {:induction false} CanonicalDigits(s: string, n: nat)
    requires IsDigits(s) && s[0] != '0' && n == DigitsValue(s)
    ensures NatToString(n) == s
  {
    var k := |s| - 1;
    if k == 0 {
      assert n == DigitValue(s[0]);
    } else {
      var p := s[..k];
      assert IsDigits(p) && p[0] == s[0];
      CanonicalDigits(p, DigitsValue(p));
      LeadingDigitsPositive(p);
      var q, d := DigitsValue(p), DigitValue(s[k]);
      assert n == q * 10 + d;
      LastDigit(q, d);
      assert n >= 10 && DigitChar(d) == s[k];
      assert NatToString(n) == NatToString(q) + [DigitChar(d)];
      assert s == p + [s[k]];
    }
  }

  /** The last decimal digit of a number and the number without it. */
  lemma LastDigit(q: nat, d: nat)
    requires d < 10
    ensures (q * 10 + d) / 10 == q && (q * 10 + d) % 10 == d
  {
  }

  lemma {:induction false} LeadingDigitsPositive(s: string)
    requires IsDigits(s) && s[0] != '0'
    ensures DigitsValue(s) >= 1
  {
    if |s| > 1 {
      LeadingDigitsPositive(s[..|s| - 1]);
    }
  }

  // ---------------------------------------------------------------------------
  // implode / splitting on a separator
  // ---------------------------------------------------------------------------

  /** PHP implode(sep, parts). */
  function Join(sep: string, parts: seq<string>): string
  {
    if parts == [] then ""
    else if |parts| == 1 then parts[0]
    else Join(sep, parts[..|parts| - 1]) + sep + parts[|parts| - 1]
  }

  /** The pieces of `s` between occurrences of `sep`; joining them with `sep` restores `s`. */
  function Split(s: string, sep: char): (r: seq<string>)
    ensures |r| > 0
    ensures forall i, j :: 0 <= i < |r| && 0 <= j < |r[i]| ==> r[i][j] != sep
    ensures Join([sep], r) == s
  {
    if s == [] then [""]
    else if s[|s| - 1] == sep then
      var r := Split(s[..|s| - 1], sep) + [""];
      assert s == s[..|s| - 1] + [sep] + "";
      r
    else
      var p := Split(s[..|s| - 1], sep);
      var r := p[..|p| - 1] + [p[|p| - 1] + [s[|s| - 1]]];
      JoinLast([sep], p[..|p| - 1], p[|p| - 1], [s[|s| - 1]]);
      assert p == p[..|p| - 1] + [p[|p| - 1]];
      assert s == s[..|s| - 1] + [s[|s| - 1]];
      r
  }

  lemma JoinLast(sep: string, init: seq<string>, last: string, tail: string)
    ensures Join(sep, init + [last + tail]) == Join(sep, init + [last]) + tail
  {
    var a := init + [last + tail];
    var b := init + [last];
    if init != [] {
      assert a[..|a| - 1] == init == b[..|b| - 1];
    }
  }

  /** Splitting at a separator that is followed by a piece without separators. */
  lemma {:induction false} SplitSnoc(a: string, sep: char, b: string)
    requires sep !in b
    ensures Split(a + [sep] + b, sep) == Split(a, sep) + [b]
  {
    var s := a + [sep] + b;
    if b == [] {
      assert s == a + [sep];
      assert s[..|s| - 1] == a && s[|s| - 1] == sep;
      assert Split(s, sep) == Split(a, sep) + [""];
    } else {
      var n := |b| - 1;
      var s0 := a + [sep] + b[..n];
      SplitSnoc(a, sep, b[..n]);
      assert s[..|s| - 1] == s0 && s[|s| - 1] == b[n];
      assert b[n] != sep;
      var p := Split(s0, sep);
      assert p == Split(a, sep) + [b[..n]];
      assert p[..|p| - 1] == Split(a, sep) && p[|p| - 1] == b[..n];
      assert Split(s, sep) == p[..|p| - 1] + [p[|p| - 1] + [b[n]]];
      assert b[..n] + [b[n]] == b;
    }
  }

  /** Joining pieces without separators and splitting again gives the pieces back. */
  lemma {:induction false} SplitJoin(parts: seq<string>, sep: char)
    requires |parts| > 0
    requires forall i :: 0 <= i < |parts| ==> sep !in parts[i]
    ensures Split(Join([sep], parts), sep) == parts
    decreases |parts|, 1
  {
    var n := |parts| - 1;
    if n == 0 {
      SplitNoSep(parts[0], sep);
      assert Join([sep], parts) == parts[0];
      assert parts == [parts[0]];
    } else {
      var init, last := parts[..n], parts[n];
      assert parts == init + [last];
      assert forall i :: 0 <= i < |init| ==> init[i] == parts[i];
      SplitJoinStep(init, last, sep);
    }
  }

  lemma SplitJoinStep(init: seq<string>, last: string, sep: char)
    requires |init| > 0
    requires forall i :: 0 <= i < |init| ==> sep !in init[i]
    requires sep !in last
    ensures Split(Join([sep], init + [last]), sep) == init + [last]
    decreases |init| + 1, 0
  {
    SplitJoin(init, sep);
    SplitSnoc(Join([sep], init), sep, last);
    var p := init + [last];
    assert p[..|p| - 1] == init;
  }

  lemma {:induction false} SplitNoSep(s: string, sep: char)
    requires sep !in s
    ensures Split(s, sep) == [s]
  {
    if s != [] {
      SplitNoSep(s[..|s| - 1], sep);
      assert s[..|s| - 1] + [s[|s| - 1]] == s;
    }
  }

  // ---------------------------------------------------------------------------
  // Facts about trimmed lines
  // ---------------------------------------------------------------------------

  lemma TrimAllCons(lines: seq<string>)
    requires |lines| >= 1
    ensures TrimAll(lines) == [Trim(lines[0])] + TrimAll(lines[1..])
  {
  }

  lemma TrimAllSnoc(lines: seq<string>)
    requires |lines| >= 1
    ensures TrimAll(lines) == TrimAll(lines[..|lines| - 1]) + [Trim(lines[|lines| - 1])]
  {
  }

  /** An indented line that starts and ends with a visible character trims to its text. */
  lemma TrimOfIndented(pad: string, s: string)
    requires forall i :: 0 <= i < |pad| ==> pad[i] == ' '
    requires s != [] && !IsTrimChar(s[0]) && !IsTrimChar(s[|s| - 1])
    ensures Trim(pad + s) == s
  {
    var t := pad + s;
    TextStartSkipsTrim(t, 0);
    assert forall k :: 0 <= k < |pad| ==> t[k] == pad[k];
    assert t[|pad|] == s[0];
    assert TextStart(t, 0) == |pad|;
    assert t[|pad|..] == s;
    assert TextEnd(s, |s|) == |s|;
  }
}
