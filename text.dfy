/** Text helpers shared by both playlist writers: newline-terminated lines,
    the decimal text Python's `str` gives an integer, and Python's
    `str.strip()`. */
module Text {

  predicate NoNewline(s: string) {
    '\n' !in s
  }

  lemma NoNewlineConcat(a: string, b: string)
    ensures NoNewline(a + b) <==> NoNewline(a) && NoNewline(b)
  {
  }

  // ---------------------------------------------------------------------
  // Newline-terminated lines

  /** The text made of every line followed by a "\n", in order. */
  function JoinLines(lines: seq<string>): (text: string)
    ensures text == "" <==> lines == []
    ensures text != "" ==> text[|text| - 1] == '\n'
  {
    if lines == [] then "" else lines[0] + "\n" + JoinLines(lines[1..])
  }

  lemma {:induction false} JoinLinesAppend(a: seq<string>, b: seq<string>)
    ensures JoinLines(a + b) == JoinLines(a) + JoinLines(b)
  {
    if a == [] {
      assert a + b == b;
    } else {
      assert (a + b)[1..] == a[1..] + b;
      JoinLinesAppend(a[1..], b);
    }
  }

  lemma JoinTwoLines(before: string, a: string, b: string)
    ensures before + JoinLines([a, b]) == before + a + "\n" + b + "\n"
  {
    assert [a, b][1..] == [b];
    assert [b][1..] == [];
  }

  /** A playlist text: the header line, then the entry lines, each
      terminated by "\n". */
  function Playlist(header: string, entries: seq<string>): string {
    JoinLines([header] + entries)
  }

  lemma PlaylistUnfold(header: string, entries: seq<string>)
    ensures Playlist(header, entries) == header + "\n" + JoinLines(entries)
  {
    assert ([header] + entries)[1..] == entries;
  }

  /** The text starts with the header line, and holds nothing else exactly
      when there are no entries. */
  lemma PlaylistHeader(header: string, entries: seq<string>)
    ensures |Playlist(header, entries)| > |header|
    ensures Playlist(header, entries)[..|header| + 1] == header + "\n"
    ensures entries == [] <==> Playlist(header, entries) == header + "\n"
  {
    PlaylistUnfold(header, entries);
    assert entries == [] <==> JoinLines(entries) == "";
  }

  /** The entries of a + b are the entries of a followed by those of b. */
  lemma PlaylistAppend(header: string, a: seq<string>, b: seq<string>)
    ensures Playlist(header, a + b) == Playlist(header, a) + Playlist(header, b)[|header| + 1..]
  {
    PlaylistUnfold(header, a + b);
    PlaylistUnfold(header, a);
    PlaylistUnfold(header, b);
    JoinLinesAppend(a, b);
  }

  lemma PlaylistSnoc(header: string, entries: seq<string>, x: string, y: string)
    ensures Playlist(header, entries + [x, y]) == Playlist(header, entries) + x + "\n" + y + "\n"
  {
    PlaylistAppend(header, entries, [x, y]);
    PlaylistUnfold(header, [x, y]);
    JoinTwoLines(Playlist(header, entries), x, y);
  }

  /** Index of the first '\n' in `s`, or |s| when there is none. */
  function LineEnd(s: string): (i: nat)
    ensures i <= |s|
    ensures i < |s| ==> s[i] == '\n'
    ensures NoNewline(s[..i])
  {
    if s == [] || s[0] == '\n' then 0
    else
      var j := LineEnd(s[1..]);
      assert s[..1 + j] == [s[0]] + s[1..][..j];
      1 + j
  }

  /** Reads text back as lines: every line ends at a '\n', and a last
      line without one is kept as well. */
  function SplitLines(text: string): seq<string>
    decreases |text|
  {
    if text == "" then []
    else
      var i := LineEnd(text);
      if i == |text| then [text] else [text[..i]] + SplitLines(text[i + 1..])
  }

  lemma {:induction false} LineEndOfLine(line: string, rest: string)
    requires NoNewline(line)
    ensures LineEnd(line + "\n" + rest) == |line|
  {
    if line != [] {
      assert (line + "\n" + rest)[1..] == line[1..] + "\n" + rest;
      assert line[0] in line;
      LineEndOfLine(line[1..], rest);
    }
  }

  lemma SplitLinesCons(line: string, rest: string)
    requires NoNewline(line)
    ensures SplitLines(line + "\n" + rest) == [line] + SplitLines(rest)
  {
    var t := line + "\n" + rest;
    LineEndOfLine(line, rest);
    assert t[..|line|] == line;
    assert t[|line| + 1..] == rest;
  }

  /** Joining newline-free lines and reading the text back gives the
      same lines: each line of the text is exactly one input line. */
  lemma {:induction false} SplitJoinLines(lines: seq<string>)
    requires forall k :: 0 <= k < |lines| ==> NoNewline(lines[k])
    ensures SplitLines(JoinLines(lines)) == lines
  {
    if lines != [] {
      SplitLinesCons(lines[0], JoinLines(lines[1..]));
      SplitJoinLines(lines[1..]);
    }
  }

  // ---------------------------------------------------------------------
  // Python `str(n)` for an int n

  function DigitChar(d: nat): (c: char)
    requires d < 10
    ensures '0' <= c <= '9' && c as int - '0' as int == d
  {
    ('0' as int + d) as char
  }

  /** Decimal digits of `n`, most significant first, no leading zero. */
  function NatToDecimal(n: nat): (s: string)
    ensures |s| >= 1
  {
    if n < 10 then [DigitChar(n)] else NatToDecimal(n / 10) + [DigitChar(n % 10)]
  }

  /** The text is digits only, "0" for zero and without a leading zero
      otherwise. */
  lemma {:induction false} NatToDecimalDigits(n: nat)
    ensures var s := NatToDecimal(n);
      (forall k :: 0 <= k < |s| ==> '0' <= s[k] <= '9')
      && (n == 0 ==> s == "0") && (n > 0 ==> s[0] != '0')
  {
    if n >= 10 {
      NatToDecimalDigits(n / 10);
    }
  }

  function IntToDecimal(n: int): (s: string)
    ensures NoNewline(s)
  {
    var digits := if n < 0 then NatToDecimal(-n) else NatToDecimal(n);
    NatToDecimalDigits(if n < 0 then -n else n);
    assert '\n' !in digits;
    if n < 0 then "-" + digits else digits
  }

  /** A minus sign marks exactly the negative numbers. */
  lemma IntToDecimalSign(n: int)
    ensures var s := IntToDecimal(n);
      n < 0 <==> (|s| > 0 && s[0] == '-')
  {
    NatToDecimalDigits(if n < 0 then -n else n);
  }

  /** Value of a string of decimal digits (the reading direction of
      NatToDecimal). */
  function DigitsValue(s: string): int {
    if s == [] then 0 else 10 * DigitsValue(s[..|s| - 1]) + (s[|s| - 1] as int - '0' as int)
  }

  function DecimalValue(s: string): int {
    if |s| > 0 && s[0] == '-' then -DigitsValue(s[1..]) else DigitsValue(s)
  }

  lemma {:induction false} NatToDecimalValue(n: nat)
    ensures DigitsValue(NatToDecimal(n)) == n
  {
    if n >= 10 {
      var s := NatToDecimal(n);
      assert s[..|s| - 1] == NatToDecimal(n / 10);
      NatToDecimalValue(n / 10);
    }
  }

  /** The id text in a playlist line reads back as the id. */
  lemma IntToDecimalValue(n: int)
    ensures DecimalValue(IntToDecimal(n)) == n
  {
    if n < 0 {
      assert IntToDecimal(n)[1..] == NatToDecimal(-n);
      NatToDecimalValue(-n);
    } else {
      NatToDecimalDigits(n);
      NatToDecimalValue(n);
    }
  }

  // ---------------------------------------------------------------------
  // Python `str.strip()` with no argument

  /** The characters Python's `str.isspace()` accepts: the ones `strip()`
      removes from both ends. */
  predicate IsSpace(c: char) {
    var n := c as int;
    (0x09 <= n <= 0x0D) || (0x1C <= n <= 0x20) || n == 0x85 || n == 0xA0 || n == 0x1680
    || (0x2000 <= n <= 0x200A) || n == 0x2028 || n == 0x2029 || n == 0x202F
    || n == 0x205F || n == 0x3000
  }

  predicate AllSpace(s: string) {
    forall k :: 0 <= k < |s| ==> IsSpace(s[k])
  }

  function StripLeft(s: string): string {
    if s != "" && IsSpace(s[0]) then StripLeft(s[1..]) else s
  }

  function StripRight(s: string): string {
    if s != "" && IsSpace(s[|s| - 1]) then StripRight(s[..|s| - 1]) else s
  }

  /** `s.strip()`: `s` without its leading and trailing whitespace. */
  function Strip(s: string): string {
    StripRight(StripLeft(s))
  }

  /** StripLeft removes a whitespace prefix and stops at the first other
      character. */
  lemma {:induction false} StripLeftFacts(s: string)
    ensures var r := StripLeft(s);
      |r| <= |s| && r == s[|s| - |r|..] && AllSpace(s[..|s| - |r|]) && (r != "" ==> !IsSpace(r[0]))
  {
    if s != "" && IsSpace(s[0]) {
      StripLeftFacts(s[1..]);
      var r := StripLeft(s[1..]);
      assert s[..|s| - |r|] == [s[0]] + s[1..][..|s| - 1 - |r|];
    }
  }

  /** StripRight removes a whitespace suffix and stops at the last other
      character. */
  lemma {:induction false} StripRightFacts(s: string)
    ensures var r := StripRight(s);
      |r| <= |s| && r == s[..|r|] && AllSpace(s[|r|..]) && (r != "" ==> !IsSpace(r[|r| - 1]))
  {
    if s != "" && IsSpace(s[|s| - 1]) {
      StripRightFacts(s[..|s| - 1]);
      var r := StripRight(s[..|s| - 1]);
      assert s[|r|..] == s[..|s| - 1][|r|..] + [s[|s| - 1]];
    }
  }

  /** The result of `strip()` neither starts nor ends with whitespace, and
      is empty exactly when `s` is all whitespace. */
  lemma StripEnds(s: string)
    ensures var r := Strip(s);
      (r != "" ==> !IsSpace(r[0]) && !IsSpace(r[|r| - 1])) && (r == "" <==> AllSpace(s))
  {
    var left := StripLeft(s);
    var r := StripRight(left);
    StripLeftFacts(s);
    StripRightFacts(left);
    var i := |s| - |left|;
    assert s[i + |r|..] == left[|r|..];
    assert s == s[..i] + left;
    AllSpaceConcat(s[..i], left);
    assert r != "" ==> s[i] == r[0];
  }

  /** What `strip()` removes is whitespace at the two ends only: the result
      is the slice s[i..i + |Strip(s)|] and both cut-off parts are
      whitespace. */
  lemma StripIsSlice(s: string)
    ensures var i, r := |s| - |StripLeft(s)|, Strip(s);
      0 <= i && i + |r| <= |s| && r == s[i..i + |r|] && AllSpace(s[..i]) && AllSpace(s[i + |r|..])
  {
    var left := StripLeft(s);
    StripLeftFacts(s);
    StripRightFacts(left);
    var i := |s| - |left|;
    var r := Strip(s);
    assert r == left[..|r|];
    assert s[i + |r|..] == left[|r|..];
  }

  lemma AllSpaceConcat(a: string, b: string)
    ensures AllSpace(a) && AllSpace(b) ==> AllSpace(a + b)
  {
  }
}
