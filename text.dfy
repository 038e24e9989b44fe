/** The string operations the components use: `toLowerCase`/`toUpperCase`
    (ASCII letters only), `includes`, `toString` of an integer, `trim`,
    `split(' ')`, and the first-letter initials built from them. */
module Text {

  function LowerChar(c: char): char
  {
    if 'A' <= c <= 'Z' then (c as int + 32) as char else c
  }

  function UpperChar(c: char): char
  {
    if 'a' <= c <= 'z' then (c as int - 32) as char else c
  }

  /** `s.toLowerCase()`, character by character. */
  function Lower(s: string): (r: string)
    ensures |r| == |s|
    ensures forall i :: 0 <= i < |s| ==> r[i] == LowerChar(s[i])
  {
    if s == [] then [] else [LowerChar(s[0])] + Lower(s[1..])
  }

  /** `s.toUpperCase()`, character by character. */
  function Upper(s: string): (r: string)
    ensures |r| == |s|
    ensures forall i :: 0 <= i < |s| ==> r[i] == UpperChar(s[i])
  {
    if s == [] then [] else [UpperChar(s[0])] + Upper(s[1..])
  }

  /** `s.includes(t)`: `t` occurs in `s` as a contiguous block. */
  predicate Includes(s: string, t: string)
  {
    exists i :: 0 <= i <= |s| - |t| && OccursAt(s, t, i)
  }

  predicate OccursAt(s: string, t: string, i: int)
  {
    0 <= i <= |s| - |t| && s[i..i + |t|] == t
  }

  function DigitChar(d: nat): char
    requires d < 10
  {
    ('0' as int + d) as char
  }

  predicate IsDigit(c: char)
  {
    '0' <= c <= '9'
  }

  /** `n.toString()` for a non-negative integer: decimal digits, no leading
      zero. */
  function NatToString(n: nat): (r: string)
    ensures |r| >= 1
    ensures forall i :: 0 <= i < |r| ==> IsDigit(r[i])
    ensures n > 0 ==> r[0] != '0'
  {
    if n < 10 then [DigitChar(n)] else NatToString(n / 10) + [DigitChar(n % 10)]
  }

  /** `n.toString()` for any integer: a minus sign in front of a negative
      one. */
  function IntToString(n: int): (r: string)
    ensures |r| >= 1
    ensures n >= 0 ==> forall i :: 0 <= i < |r| ==> IsDigit(r[i])
    ensures n < 0 ==> r[0] == '-' && forall i :: 1 <= i < |r| ==> IsDigit(r[i])
  {
    if n >= 0 then NatToString(n) else "-" + NatToString(-n)
  }

  /** Reads back decimal digits: the inverse of `NatToString`. */
  function DigitsValue(s: string): nat
    requires forall i :: 0 <= i < |s| ==> IsDigit(s[i])
  {
    if s == [] then 0
    else
      assert IsDigit(s[|s| - 1]);
      DigitsValue(s[..|s| - 1]) * 10 + (s[|s| - 1] as int - '0' as int)
  }

  lemma {:induction false} NatToStringRoundTrip(n: nat)
    ensures DigitsValue(NatToString(n)) == n
  {
    if n >= 10 {
      NatToStringRoundTrip(n / 10);
      var r := NatToString(n);
      assert r[..|r| - 1] == NatToString(n / 10);
    }
  }

  /** The characters `String.prototype.trim` removes: the ECMAScript
      WhiteSpace set (tab, vertical tab, form feed, space, no-break space,
      the byte order mark and the Unicode space separators) and the
      LineTerminator set (line feed, carriage return, the line and
      paragraph separators). */
  predicate IsSpace(c: char)
  {
    c == ' ' || c == '\t' || c == '\n' || c == '\r' || c == '\U{000B}' || c == '\U{000C}'
    || c == '\U{00A0}' || c == '\U{FEFF}' || c == '\U{1680}'
    || ('\U{2000}' <= c <= '\U{200A}')
    || c == '\U{2028}' || c == '\U{2029}' || c == '\U{202F}' || c == '\U{205F}' || c == '\U{3000}'
  }

  /** How many white-space characters `s` starts with. */
  function LeadingSpaces(s: string): (k: nat)
    ensures k <= |s|
    ensures forall i :: 0 <= i < k ==> IsSpace(s[i])
    ensures k < |s| ==> !IsSpace(s[k])
  {
    if s != [] && IsSpace(s[0]) then 1 + LeadingSpaces(s[1..]) else 0
  }

  /** How many white-space characters `s` ends with. */
  function TrailingSpaces(s: string): (k: nat)
    ensures k <= |s|
    ensures forall i :: |s| - k <= i < |s| ==> IsSpace(s[i])
    ensures k < |s| ==> !IsSpace(s[|s| - k - 1])
  {
    if s != [] && IsSpace(s[|s| - 1]) then 1 + TrailingSpaces(s[..|s| - 1]) else 0
  }

  /** `s.trim()`: the block of `s` between its leading and trailing white
      space; everything outside the block is white space. */
  function Trim(s: string): (r: string)
    ensures LeadingSpaces(s) + |r| <= |s| && r == s[LeadingSpaces(s)..LeadingSpaces(s) + |r|]
    ensures forall i :: 0 <= i < |s| && !(LeadingSpaces(s) <= i < LeadingSpaces(s) + |r|) ==> IsSpace(s[i])
    ensures r != [] ==> !IsSpace(r[0]) && !IsSpace(r[|r| - 1])
  {
    var k := LeadingSpaces(s);
    var t := s[k..];
    var m := TrailingSpaces(t);
    assert forall i :: k + |t| - m <= i < |s| ==> s[i] == t[i - k];
    t[..|t| - m]
  }

  /** The trimmed text is empty exactly when the input is white space only. */
  lemma TrimEmptyIff(s: string)
    ensures Trim(s) == [] <==> forall i :: 0 <= i < |s| ==> IsSpace(s[i])
  {
    if Trim(s) != [] {
      assert !IsSpace(s[LeadingSpaces(s)]);
    }
  }

  /** Trimming twice is trimming once. */
  lemma TrimIdempotent(s: string)
    ensures Trim(Trim(s)) == Trim(s)
  {
    var r := Trim(s);
    if r != [] {
      assert LeadingSpaces(r) == 0;
      assert r[0..] == r;
      assert TrailingSpaces(r) == 0;
    }
  }

  /** `s.split(' ')`: the pieces between single spaces, empty ones
      included; there is always at least one piece. */
  function SplitOnSpace(s: string): (parts: seq<string>)
    ensures |parts| >= 1
  {
    if s == [] then [""]
    else if s[0] == ' ' then [""] + SplitOnSpace(s[1..])
    else
      var rest := SplitOnSpace(s[1..]);
      [[s[0]] + rest[0]] + rest[1..]
  }

  /** `parts.map(n => n[0]).join('')`: the first character of every piece; an
      empty piece gives `undefined`, which `join` writes as nothing. */
  function FirstChars(parts: seq<string>): string
  {
    if parts == [] then ""
    else (if parts[0] == "" then "" else [parts[0][0]]) + FirstChars(parts[1..])
  }

  /** `name.split(' ').map(n => n[0]).join('').toUpperCase()`: the
      upper-cased first characters of the space-separated words, so one per
      word and never a space among them. */
  function Initials(name: string): (r: string)
    ensures r == Upper(WordStarts(name, true))
    ensures forall i :: 0 <= i < |r| ==> r[i] != ' '
  {
    FirstCharsOfSplit(name);
    WordStartsHasNoSpace(name, true);
    Upper(FirstChars(SplitOnSpace(name)))
  }

  /** An independent reading of the same rule: the characters that are not a
      space and start the name or follow a space. */
  function WordStarts(s: string, afterSpace: bool): string
  {
    if s == [] then ""
    else (if s[0] != ' ' && afterSpace then [s[0]] else "") + WordStarts(s[1..], s[0] == ' ')
  }

  lemma {:induction false} FirstCharsOfSplit(s: string)
    ensures FirstChars(SplitOnSpace(s)) == WordStarts(s, true)
    ensures FirstChars(SplitOnSpace(s)[1..]) == WordStarts(s, false)
  {
    if s != [] {
      FirstCharsOfSplit(s[1..]);
      var rest := SplitOnSpace(s[1..]);
      if s[0] == ' ' {
        assert SplitOnSpace(s)[1..] == rest;
      } else {
        var parts := SplitOnSpace(s);
        assert parts[0] == [s[0]] + rest[0] && parts[1..] == rest[1..];
      }
    }
  }

  lemma {:induction false} WordStartsHasNoSpace(s: string, afterSpace: bool)
    ensures forall i :: 0 <= i < |WordStarts(s, afterSpace)| ==> WordStarts(s, afterSpace)[i] != ' '
  {
    if s != [] {
      WordStartsHasNoSpace(s[1..], s[0] == ' ');
    }
  }

  /** A name with no space has the upper-cased first letter as its initials. */
  lemma {:induction false} InitialsOfOneWord(name: string)
    requires name != [] && forall i :: 0 <= i < |name| ==> name[i] != ' '
    ensures Initials(name) == [UpperChar(name[0])]
  {
    FirstCharsOfSplit(name);
    NoSpaceNoStarts(name[1..]);
  }

  lemma {:induction false} NoSpaceNoStarts(s: string)
    requires forall i :: 0 <= i < |s| ==> s[i] != ' '
    ensures WordStarts(s, false) == ""
  {
    if s != [] {
      NoSpaceNoStarts(s[1..]);
    }
  }
}
