/** Option, for the values JavaScript represents as null or undefined. */
module Wrappers {
  datatype Option<+T> = None | Some(value: T)
}

/**
 * The JavaScript string built-ins that the file-share clients and the worker
 * rely on: trim, length in UTF-16 code units, startsWith, includes, split for
 * one character, toUpperCase as far as the code input needs it, and replace
 * with a negated character class and the global flag. IndexOf for one
 * character serves the models of Location.search and URLSearchParams.get.
 * A JavaScript string is modelled as a sequence of Unicode scalar values.
 */
module JsString {

  /** The characters String.prototype.trim removes: ECMAScript WhiteSpace and LineTerminator. */
  predicate IsWhiteSpace(c: char) {
    || c == '\t' || c == '\n' || c == '\U{000B}' || c == '\U{000C}' || c == '\r'
    || c == ' ' || c == '\U{00A0}' || c == '\U{1680}'
    || ('\U{2000}' <= c <= '\U{200A}')
    || c == '\U{2028}' || c == '\U{2029}' || c == '\U{202F}' || c == '\U{205F}'
    || c == '\U{3000}' || c == '\U{FEFF}'
  }

  /** Leading white space removed. */
  function TrimStart(s: string): (r: string)
    ensures |r| <= |s| && r == s[|s| - |r|..]
    ensures r != [] ==> !IsWhiteSpace(r[0])
    ensures forall i :: 0 <= i < |s| - |r| ==> IsWhiteSpace(s[i])
  {
    if s != [] && IsWhiteSpace(s[0]) then TrimStart(s[1..]) else s
  }

  /** Trailing white space removed. */
  function TrimEnd(s: string): (r: string)
    ensures |r| <= |s| && r == s[..|r|]
    ensures r != [] ==> !IsWhiteSpace(r[|r| - 1])
    ensures forall i :: |r| <= i < |s| ==> IsWhiteSpace(s[i])
  {
    if s != [] && IsWhiteSpace(s[|s| - 1]) then TrimEnd(s[..|s| - 1]) else s
  }

  /** r is the slice of s that starts at k, and everything of s before or after it is white space. */
  predicate TrimmedAt(s: string, r: string, k: int) {
    && 0 <= k <= |s| - |r| && r == s[k..k + |r|]
    && (forall i :: 0 <= i < k ==> IsWhiteSpace(s[i]))
    && (forall i :: k + |r| <= i < |s| ==> IsWhiteSpace(s[i]))
  }

  /**
   * String.prototype.trim: the result is a slice of s with only white space
   * before and after it, and it neither starts nor ends with white space.
   */
  function Trim(s: string): (r: string)
    ensures |r| <= |s|
    ensures exists k :: TrimmedAt(s, r, k)
    ensures r != [] ==> !IsWhiteSpace(r[0]) && !IsWhiteSpace(r[|r| - 1])
    ensures (forall i :: 0 <= i < |s| ==> !IsWhiteSpace(s[i])) ==> r == s
  {
    var t := TrimStart(s);
    TrimmedSlice(s, t, TrimEnd(t));
    TrimEnd(t)
  }

  /**
   * If t is s without k leading white space characters, and r is t without
   * trailing white space, then r is the slice of s at k with only white space
   * around it.
   */
  lemma TrimmedSlice(s: string, t: string, r: string)
    requires |t| <= |s| && t == s[|s| - |t|..]
    requires forall i :: 0 <= i < |s| - |t| ==> IsWhiteSpace(s[i])
    requires |r| <= |t| && r == t[..|r|]
    requires forall i :: |r| <= i < |t| ==> IsWhiteSpace(t[i])
    ensures TrimmedAt(s, r, |s| - |t|)
  {
    var k := |s| - |t|;
    assert r == s[k..k + |r|];
    forall i | k + |r| <= i < |s|
      ensures IsWhiteSpace(s[i])
    {
      assert s[i] == t[i - k];
    }
  }

  /** The value a UTF-16 sequence of one or two code units stands for. */
  function Utf16Decode(units: seq<int>): int
    requires |units| == 1 || |units| == 2
  {
    if |units| == 1 then units[0]
    else 0x1_0000 + (units[0] - 0xD800) * 0x400 + (units[1] - 0xDC00)
  }

  /**
   * The UTF-16 code units of one code point: the code point itself up to
   * U+FFFF, otherwise a high surrogate followed by a low surrogate. Every unit
   * fits in 16 bits, and decoding gives the code point back.
   */
  function Utf16Units(c: char): (units: seq<int>)
    ensures |units| == 1 || |units| == 2
    ensures |units| == 2 <==> c as int >= 0x1_0000
    ensures forall i :: 0 <= i < |units| ==> 0 <= units[i] < 0x1_0000
    ensures |units| == 2 ==> 0xD800 <= units[0] < 0xDC00 <= units[1] < 0xE000
    ensures Utf16Decode(units) == c as int
  {
    if c as int < 0x1_0000 then [c as int]
    else
      var v := c as int - 0x1_0000;
      [0xD800 + v / 0x400, 0xDC00 + v % 0x400]
  }

  /** String.prototype.length: a code point above U+FFFF takes two UTF-16 code units. */
  function Utf16Length(s: string): (n: nat)
    ensures |s| <= n <= 2 * |s|
    ensures (forall i :: 0 <= i < |s| ==> s[i] as int < 0x1_0000) ==> n == |s|
    ensures |s| == 1 ==> n == |Utf16Units(s[0])|
  {
    if s == [] then 0 else |Utf16Units(s[0])| + Utf16Length(s[1..])
  }

  /** The length of a concatenation is the sum of the lengths, so each code point adds its own code units. */
  lemma {:induction false} Utf16LengthAppend(a: string, b: string)
    ensures Utf16Length(a + b) == Utf16Length(a) + Utf16Length(b)
  {
    if a == [] {
      assert a + b == b;
    } else {
      assert (a + b)[1..] == a[1..] + b;
      Utf16LengthAppend(a[1..], b);
    }
  }

  /** String.prototype.startsWith. */
  predicate StartsWith(s: string, prefix: string) {
    |prefix| <= |s| && s[..|prefix|] == prefix
  }

  /** s starts with prefix exactly when s is prefix followed by some string. */
  lemma StartsWithConcat(s: string, prefix: string)
    ensures StartsWith(s, prefix) <==> exists t :: s == prefix + t
  {
    if StartsWith(s, prefix) {
      assert s == prefix + s[|prefix|..];
    }
    if t :| s == prefix + t {
      assert s[..|prefix|] == prefix;
    }
  }

  /** String.prototype.includes. */
  predicate Contains(s: string, sub: string)
    decreases |s|
  {
    StartsWith(s, sub) || (s != [] && Contains(s[1..], sub))
  }

  /** sub occurs in s at position k. */
  predicate OccursAt(s: string, sub: string, k: int) {
    0 <= k <= |s| - |sub| && s[k..k + |sub|] == sub
  }

  /** includes holds exactly when sub occurs in s at some position. */
  lemma {:induction false} ContainsOccurs(s: string, sub: string)
    ensures Contains(s, sub) <==> exists k :: OccursAt(s, sub, k)
  {
    if StartsWith(s, sub) {
      assert OccursAt(s, sub, 0);
    }
    if s != [] {
      ContainsOccurs(s[1..], sub);
      if Contains(s[1..], sub) {
        var k :| OccursAt(s[1..], sub, k);
        assert s[1..][k..k + |sub|] == s[k + 1..k + 1 + |sub|];
        assert OccursAt(s, sub, k + 1);
      }
      if k :| OccursAt(s, sub, k) {
        if k > 0 {
          assert s[1..][k - 1..k - 1 + |sub|] == s[k..k + |sub|];
          assert OccursAt(s[1..], sub, k - 1);
        }
      }
    } else if k :| OccursAt(s, sub, k) {
      assert sub == [];
    }
  }

  /** String.prototype.indexOf for one character: the first position of c, or -1. */
  function IndexOf(s: string, c: char): (i: int)
    ensures -1 <= i < |s|
    ensures i == -1 <==> c !in s
    ensures 0 <= i ==> s[i] == c && c !in s[..i]
  {
    if s == [] then -1
    else if s[0] == c then 0
    else
      var j := IndexOf(s[1..], c);
      if j < 0 then -1 else assert s[1..][..j] == s[1..j + 1]; j + 1
  }

  lemma {:induction false} IndexOfAfter(a: string, b: string, c: char)
    requires c !in a
    ensures IndexOf(a + b, c) == if c in b then |a| + IndexOf(b, c) else -1
  {
    if a != [] {
      assert (a + b)[1..] == a[1..] + b;
      IndexOfAfter(a[1..], b, c);
    } else {
      assert a + b == b;
    }
  }

  /** Array.prototype.join with a one-character separator. */
  function Join(parts: seq<string>, sep: char): string
    requires |parts| >= 1
  {
    if |parts| == 1 then parts[0] else parts[0] + [sep] + Join(parts[1..], sep)
  }

  /**
   * String.prototype.split with a one-character separator: every occurrence
   * cuts, so the pieces hold no separator and joining them gives s back.
   */
  function Split(s: string, sep: char): (parts: seq<string>)
    ensures |parts| >= 1
    ensures forall i :: 0 <= i < |parts| ==> sep !in parts[i]
    ensures Join(parts, sep) == s
  {
    if s == [] then [[]]
    else
      var rest := Split(s[1..], sep);
      if s[0] == sep then
        assert Join([[]] + rest, sep) == [sep] + Join(rest, sep) by {
          assert ([[]] + rest)[1..] == rest;
        }
        [[]] + rest
      else
        var first := [s[0]] + rest[0];
        assert Join([first] + rest[1..], sep) == [s[0]] + Join(rest, sep) by {
          if |rest| > 1 {
            assert ([first] + rest[1..])[1..] == rest[1..];
          }
        }
        [first] + rest[1..]
  }

  /** A leading piece without the separator is split off as the first piece. */
  lemma {:induction false} SplitAfterPiece(a: string, sep: char, b: string)
    requires sep !in a
    ensures Split(a + [sep] + b, sep) == [a] + Split(b, sep)
  {
    if a == [] {
      assert (a + [sep] + b)[1..] == b;
    } else {
      assert (a + [sep] + b)[1..] == a[1..] + [sep] + b;
      SplitAfterPiece(a[1..], sep, b);
      assert [a[0]] + a[1..] == a;
    }
  }

  /** A string without the separator is one piece. */
  lemma {:induction false} SplitWithoutSeparator(s: string, sep: char)
    requires sep !in s
    ensures Split(s, sep) == [s]
  {
    if s != [] {
      SplitWithoutSeparator(s[1..], sep);
      assert [s[0]] + s[1..] == s;
    }
  }

  /** The two character classes the code inputs filter to. */
  datatype CharClass =
    | UpperAlnum  // [A-Z0-9]
    | Digit       // [0-9]

  predicate InClass(c: char, cls: CharClass) {
    match cls
    case Digit => '0' <= c <= '9'
    case UpperAlnum => 'A' <= c <= 'Z' || '0' <= c <= '9'
  }

  predicate AllInClass(s: string, cls: CharClass) {
    forall i :: 0 <= i < |s| ==> InClass(s[i], cls)
  }

  /**
   * s.replace(/[^class]/g, ''): every character outside the class is dropped.
   * Without the u flag the regular expression sees UTF-16 code units, but both
   * halves of a surrogate pair fall outside either class, so working on code
   * points gives the same string.
   */
  function KeepOnly(s: string, cls: CharClass): (r: string)
    ensures AllInClass(r, cls)
    ensures |r| <= |s|
  {
    if s == [] then [] else (if InClass(s[0], cls) then [s[0]] else []) + KeepOnly(s[1..], cls)
  }

  /** Filtering distributes over concatenation: what is kept keeps its order. */
  lemma {:induction false} KeepOnlyAppend(a: string, b: string, cls: CharClass)
    ensures KeepOnly(a + b, cls) == KeepOnly(a, cls) + KeepOnly(b, cls)
  {
    if a != [] {
      assert (a + b)[1..] == a[1..] + b;
      KeepOnlyAppend(a[1..], b, cls);
    } else {
      assert a + b == b;
    }
  }

  /** A string already inside the class is left as it is. */
  lemma {:induction false} KeepOnlyInClass(s: string, cls: CharClass)
    requires AllInClass(s, cls)
    ensures KeepOnly(s, cls) == s
  {
    if s != [] {
      KeepOnlyInClass(s[1..], cls);
    }
  }

  /** a can be obtained from b by deleting characters. */
  predicate IsSubsequence(a: string, b: string)
    decreases |b|
  {
    if a == [] then true
    else if b == [] then false
    else if a[0] == b[0] then IsSubsequence(a[1..], b[1..])
    else IsSubsequence(a, b[1..])
  }

  /** What the filter keeps appears in the input, in the same order. */
  lemma {:induction false} KeepOnlySubsequence(s: string, cls: CharClass)
    ensures IsSubsequence(KeepOnly(s, cls), s)
  {
    if s != [] {
      KeepOnlySubsequence(s[1..], cls);
      var r := KeepOnly(s, cls);
      if InClass(s[0], cls) {
        assert r[0] == s[0] && r[1..] == KeepOnly(s[1..], cls);
      } else if r != [] {
        assert r == KeepOnly(s[1..], cls);
        assert InClass(r[0], cls) && r[0] != s[0];
      }
    }
  }

  predicate IsAsciiLower(c: char) { 'a' <= c <= 'z' }

  /**
   * String.prototype.toUpperCase of one character, exact for every character
   * whose upper-case form contains a character of [A-Z0-9]: the ASCII lower-case
   * letters, and the non-ASCII characters of the Unicode case mappings whose
   * upper-case form holds ASCII letters (sharp s, dotless i, long s, the
   * apostrophe n, the Latin letters with a ring, caron, macron or diaeresis that
   * have no precomposed capital, and the Latin ligatures). Every other character
   * is returned unchanged; its real upper-case form has no character of
   * [A-Z0-9] either, so after the code filter the two agree.
   */
  function UpperOf(c: char): (u: string)
    ensures u != []
    ensures IsAsciiLower(c) ==> u == [(c as int - 32) as char]
    ensures c as int < 0x80 && !IsAsciiLower(c) ==> u == [c]
  {
    if IsAsciiLower(c) then [(c as int - 32) as char]
    else if c == '\U{00DF}' then "SS"                  // sharp s
    else if c == '\U{0131}' then "I"                   // dotless i
    else if c == '\U{017F}' then "S"                   // long s
    else if c == '\U{0149}' then "\U{02BC}N"           // n preceded by apostrophe
    else if c == '\U{01F0}' then "J\U{030C}"           // j with caron
    else if c == '\U{1E96}' then "H\U{0331}"           // h with line below
    else if c == '\U{1E97}' then "T\U{0308}"           // t with diaeresis
    else if c == '\U{1E98}' then "W\U{030A}"           // w with ring above
    else if c == '\U{1E99}' then "Y\U{030A}"           // y with ring above
    else if c == '\U{1E9A}' then "A\U{02BE}"           // a with right half ring
    else if c == '\U{FB00}' then "FF"
    else if c == '\U{FB01}' then "FI"
    else if c == '\U{FB02}' then "FL"
    else if c == '\U{FB03}' then "FFI"
    else if c == '\U{FB04}' then "FFL"
    else if c == '\U{FB05}' then "ST"
    else if c == '\U{FB06}' then "ST"
    else [c]
  }

  predicate IsAscii(s: string) {
    forall i :: 0 <= i < |s| ==> s[i] as int < 0x80
  }

  /**
   * String.prototype.toUpperCase, in the sense of UpperOf: never shorter than
   * its input, and on ASCII text it maps a-z to A-Z position by position and
   * keeps every other character.
   */
  function UpperCase(s: string): (u: string)
    ensures |u| >= |s|
    ensures IsAscii(s) ==> |u| == |s| && forall i :: 0 <= i < |s| ==>
      u[i] == if IsAsciiLower(s[i]) then (s[i] as int - 32) as char else s[i]
  {
    if s == [] then [] else UpperOf(s[0]) + UpperCase(s[1..])
  }

  lemma {:induction false} UpperCaseAppend(a: string, b: string)
    ensures UpperCase(a + b) == UpperCase(a) + UpperCase(b)
  {
    if a != [] {
      assert (a + b)[1..] == a[1..] + b;
      UpperCaseAppend(a[1..], b);
    } else {
      assert a + b == b;
    }
  }

  /** Upper-casing leaves A-Z and 0-9 alone. */
  lemma {:induction false} UpperCaseOfUpperAlnum(s: string)
    requires AllInClass(s, UpperAlnum)
    ensures UpperCase(s) == s
  {
    if s != [] {
      UpperCaseOfUpperAlnum(s[1..]);
      assert [s[0]] + s[1..] == s;
    }
  }
}
