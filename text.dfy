/**
 * String helpers standing in for the Python `str` methods the core uses:
 * `lower`, `strip`, `title`, `split`, `join`, `replace`, `in` (substring),
 * `endswith` and `str(int)`.
 */
module Text {

  /** `str.lower()` on one character: ASCII and Latin-1 upper-case letters. */
  function LowerChar(c: char): char {
    if 'A' <= c <= 'Z' then (c as int + 32) as char
    else if 0xC0 <= c as int <= 0xDE && c as int != 0xD7 then (c as int + 32) as char
    else c
  }

  /** `str.lower()`. */
  function Lower(s: string): (r: string)
    ensures |r| == |s|
    ensures forall i :: 0 <= i < |r| ==> !('A' <= r[i] <= 'Z')
    ensures forall i :: 0 <= i < |s| && 'A' <= s[i] <= 'Z' ==> r[i] as int == s[i] as int + 32
    ensures forall i :: 0 <= i < |s| && s[i] as int < 0xC0 && !('A' <= s[i] <= 'Z') ==> r[i] == s[i]
  {
    seq(|s|, i requires 0 <= i < |s| => LowerChar(s[i]))
  }

  lemma LowerIdempotent(s: string)
    ensures Lower(Lower(s)) == Lower(s)
  {
  }

  /** `str.isspace()` for one character: the characters Python strips by default. */
  predicate IsSpace(c: char) {
    var n := c as int;
    (0x09 <= n <= 0x0D) || (0x1C <= n <= 0x20) || n == 0x85 || n == 0xA0 || n == 0x1680
    || (0x2000 <= n <= 0x200A) || n == 0x2028 || n == 0x2029 || n == 0x202F || n == 0x205F
    || n == 0x3000
  }

  function StripLeading(s: string): string
    decreases |s|
  {
    if s != [] && IsSpace(s[0]) then StripLeading(s[1..]) else s
  }

  function StripTrailing(s: string): string
    decreases |s|
  {
    if s != [] && IsSpace(s[|s| - 1]) then StripTrailing(s[..|s| - 1]) else s
  }

  /** `str.strip()`. */
  function Strip(s: string): string {
    StripTrailing(StripLeading(s))
  }

  /** Stripping leaves no white space at either end. */
  lemma {:induction false} StripEnds(s: string)
    ensures var r := Strip(s); r == [] || (!IsSpace(r[0]) && !IsSpace(r[|r| - 1]))
  {
    var l := StripLeading(s);
    StripLeadingEnds(s);
    StripTrailingKeepsStart(l);
    StripTrailingEnds(l);
  }

  lemma {:induction false} StripLeadingEnds(s: string)
    ensures StripLeading(s) == [] || !IsSpace(StripLeading(s)[0])
    decreases |s|
  {
    if s != [] && IsSpace(s[0]) {
      StripLeadingEnds(s[1..]);
    }
  }

  lemma {:induction false} StripTrailingEnds(s: string)
    ensures StripTrailing(s) == [] || !IsSpace(StripTrailing(s)[|StripTrailing(s)| - 1])
    decreases |s|
  {
    if s != [] && IsSpace(s[|s| - 1]) {
      StripTrailingEnds(s[..|s| - 1]);
    }
  }

  lemma {:induction false} StripTrailingKeepsStart(s: string)
    ensures StripTrailing(s) == [] || StripTrailing(s)[0] == s[0]
    decreases |s|
  {
    if s != [] && IsSpace(s[|s| - 1]) {
      StripTrailingKeepsStart(s[..|s| - 1]);
    }
  }

  /** A text with no white space at its ends is its own strip. */
  lemma StripUnpadded(s: string)
    requires s == [] || (!IsSpace(s[0]) && !IsSpace(s[|s| - 1]))
    ensures Strip(s) == s
  {
  }

  predicate IsAsciiLetter(c: char) {
    ('a' <= c <= 'z') || ('A' <= c <= 'Z')
  }

  function UpperAscii(c: char): char {
    if 'a' <= c <= 'z' then (c as int - 32) as char else c
  }

  function LowerAscii(c: char): char {
    if 'A' <= c <= 'Z' then (c as int + 32) as char else c
  }

  /** `str.title()`: a letter that follows a letter is lower-cased, any other is upper-cased. */
  function TitleFrom(s: string, afterLetter: bool): (r: string)
    ensures |r| == |s|
    decreases |s|
  {
    if s == [] then []
    else
      var c := s[0];
      [if !IsAsciiLetter(c) then c else if afterLetter then LowerAscii(c) else UpperAscii(c)]
      + TitleFrom(s[1..], IsAsciiLetter(c))
  }

  function Title(s: string): string {
    TitleFrom(s, false)
  }

  predicate IsLowerWord(s: string) {
    forall i :: 0 <= i < |s| ==> 'a' <= s[i] <= 'z'
  }

  /** Letters that follow a letter are lower-cased, so a lower-case word stays as it is. */
  lemma {:induction false} TitleFromLowerWord(s: string)
    requires IsLowerWord(s)
    ensures TitleFrom(s, true) == s
    decreases |s|
  {
    if s != [] {
      TitleFromLowerWord(s[1..]);
      assert s == [s[0]] + s[1..];
    }
  }

  /** `title()` of a lower-case word capitalises its first letter only. */
  lemma TitleOfLowerWord(s: string)
    requires s != [] && IsLowerWord(s)
    ensures Title(s) == [UpperAscii(s[0])] + s[1..]
  {
    TitleFromLowerWord(s[1..]);
  }

  /** Whether the character before the next one is a letter, after `s` was title-cased from `afterLetter`. */
  function EndsWithLetter(s: string, afterLetter: bool): bool {
    if s == [] then afterLetter else IsAsciiLetter(s[|s| - 1])
  }

  /** Title-casing works piece by piece: the second piece starts from the first piece's last character. */
  lemma {:induction false} TitleFromAppend(s: string, t: string, afterLetter: bool)
    ensures TitleFrom(s + t, afterLetter) == TitleFrom(s, afterLetter) + TitleFrom(t, EndsWithLetter(s, afterLetter))
    decreases |s|
  {
    if s == [] {
      assert s + t == t;
    } else {
      assert (s + t)[0] == s[0] && (s + t)[1..] == s[1..] + t;
      TitleFromAppend(s[1..], t, IsAsciiLetter(s[0]));
      assert s[1..] != [] ==> s[1..][|s[1..]| - 1] == s[|s| - 1];
    }
  }

  /** Two lower-case words separated by a space are title-cased word by word. */
  lemma TitleOfTwoWords(a: string, b: string)
    requires a != [] && IsLowerWord(a) && b != [] && IsLowerWord(b)
    ensures Title(a + " " + b) == Title(a) + " " + Title(b)
  {
    TitleFromAppend(a, " " + b, false);
    assert a + " " + b == a + (" " + b);
    assert (" " + b)[0] == ' ' && (" " + b)[1..] == b;
  }

  /** `s.replace(from, to)` for single characters. */
  function ReplaceChar(s: string, from: char, to: char): (r: string)
    ensures |r| == |s|
  {
    seq(|s|, i requires 0 <= i < |s| => if s[i] == from then to else s[i])
  }

  /** `sub in s` for strings. */
  predicate Contains(s: string, sub: string)
    decreases |s|
  {
    StartsWith(s, sub) || (s != [] && Contains(s[1..], sub))
  }

  predicate StartsWith(s: string, prefix: string) {
    |prefix| <= |s| && s[..|prefix|] == prefix
  }

  predicate EndsWith(s: string, suffix: string) {
    |suffix| <= |s| && s[|s| - |suffix|..] == suffix
  }

  /** `s.split(sep)` with an explicit separator: never empty, keeps empty pieces. */
  function Split(s: string, sep: char): (r: seq<string>)
    ensures |r| >= 1
    ensures forall i :: 0 <= i < |r| ==> sep !in r[i]
    decreases |s|
  {
    if s == [] then [""]
    else if s[0] == sep then [""] + Split(s[1..], sep)
    else
      var rest := Split(s[1..], sep);
      [[s[0]] + rest[0]] + rest[1..]
  }

  /** `sep.join(parts)`. */
  function Join(parts: seq<string>, sep: string): string
    decreases |parts|
  {
    if parts == [] then ""
    else if |parts| == 1 then parts[0]
    else parts[0] + sep + Join(parts[1..], sep)
  }

  /** Splitting and re-joining on the same separator gives back the original text. */
  lemma {:induction false} JoinSplit(s: string, sep: char)
    ensures Join(Split(s, sep), [sep]) == s
    decreases |s|
  {
    if s == [] {
    } else if s[0] == sep {
      JoinSplit(s[1..], sep);
      assert s == [sep] + s[1..];
    } else {
      JoinSplit(s[1..], sep);
      var rest := Split(s[1..], sep);
      if |rest| == 1 {
        assert s == [s[0]] + s[1..];
      } else {
        assert rest == [rest[0]] + rest[1..];
        assert Join(rest, [sep]) == rest[0] + [sep] + Join(rest[1..], [sep]);
        assert s == [s[0]] + s[1..];
      }
    }
  }

  /** A text without the separator splits into itself alone. */
  lemma {:induction false} SplitWithoutSeparator(s: string, sep: char)
    requires sep !in s
    ensures Split(s, sep) == [s]
    decreases |s|
  {
    if s != [] {
      assert sep !in s[1..];
      SplitWithoutSeparator(s[1..], sep);
      assert s == [s[0]] + s[1..];
    }
  }

  function DigitChar(d: nat): char
    requires d < 10
  {
    "0123456789"[d]
  }

  /** `str(n)` for a natural number: decimal, no leading zeros. */
  function NatToString(n: nat): (r: string)
    ensures r != []
    decreases n
  {
    if n < 10 then [DigitChar(n)] else NatToString(n / 10) + [DigitChar(n % 10)]
  }

  /** `str(i)` for an integer. */
  function IntToString(i: int): (r: string)
    ensures r != []
  {
    if i < 0 then "-" + NatToString(-i) else NatToString(i)
  }
}
