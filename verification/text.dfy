/** String operations of the Kotlin standard library, restricted to ASCII:
    case mapping, `endsWith`, `equals(ignoreCase = true)`, `trim`, `split`
    and `joinToString`. */
module Text {

  predicate IsAsciiLower(c: char) { 'a' <= c <= 'z' }

  predicate IsAsciiUpper(c: char) { 'A' <= c <= 'Z' }

  /** `Char.uppercaseChar()` on ASCII. */
  function UpperChar(c: char): (u: char)
    ensures !IsAsciiLower(u)
    ensures IsAsciiLower(c) <==> u != c
  {
    if IsAsciiLower(c) then (c as int - 32) as char else c
  }

  /** `Char.lowercaseChar()` on ASCII. */
  function LowerChar(c: char): (l: char)
    ensures !IsAsciiUpper(l)
    ensures IsAsciiUpper(c) <==> l != c
  {
    if IsAsciiUpper(c) then (c as int + 32) as char else c
  }

  /** `String.lowercase()`. */
  function Lowercase(s: string): (r: string)
    ensures |r| == |s|
    ensures forall i :: 0 <= i < |s| ==> r[i] == LowerChar(s[i])
  {
    seq(|s|, i requires 0 <= i < |s| => LowerChar(s[i]))
  }

  /** `replaceFirstChar { if (it.isLowerCase()) it.uppercase() else it.toString() }`:
      the first character is upper-cased when it is a lower-case letter. */
  function CapitalizeFirst(s: string): (r: string)
    ensures |r| == |s|
    ensures |s| > 0 ==> r[0] == UpperChar(s[0]) && r[1..] == s[1..]
  {
    if |s| == 0 then s else [UpperChar(s[0])] + s[1..]
  }

  /** `replaceFirstChar { it.lowercase() }`. */
  function DecapitalizeFirst(s: string): (r: string)
    ensures |r| == |s|
    ensures |s| > 0 ==> r[0] == LowerChar(s[0]) && r[1..] == s[1..]
  {
    if |s| == 0 then s else [LowerChar(s[0])] + s[1..]
  }

  predicate EndsWith(s: string, suffix: string) {
    |suffix| <= |s| && s[|s| - |suffix|..] == suffix
  }

  /** `Char.equals(other, ignoreCase = true)` on ASCII. */
  predicate CharEqualsIgnoreCase(a: char, b: char) {
    UpperChar(a) == UpperChar(b)
  }

  /** `String.equals(other, ignoreCase = true)`. */
  predicate EqualsIgnoreCase(a: string, b: string) {
    |a| == |b| && forall i :: 0 <= i < |a| ==> CharEqualsIgnoreCase(a[i], b[i])
  }

  /** `Char.isWhitespace()` restricted to ASCII: space, tab, line feed,
      vertical tab, form feed, carriage return and the four separators 0x1C-0x1F. */
  predicate IsWhitespace(c: char) {
    c == ' ' || '\t' <= c <= '\r' || '\U{1C}' <= c <= '\U{1F}'
  }

  function TrimStart(s: string): (r: string)
    ensures |r| <= |s| && r == s[|s| - |r|..]
    ensures |r| > 0 ==> !IsWhitespace(r[0])
    ensures forall k :: 0 <= k < |s| - |r| ==> IsWhitespace(s[k])
    ensures forall c :: !IsWhitespace(c) ==> (c in r <==> c in s)
  {
    if |s| > 0 && IsWhitespace(s[0]) then
      assert s == [s[0]] + s[1..];
      TrimStart(s[1..])
    else s
  }

  function TrimEnd(s: string): (r: string)
    ensures |r| <= |s| && r == s[..|r|]
    ensures |r| > 0 ==> !IsWhitespace(r[|r| - 1])
    ensures forall k :: |r| <= k < |s| ==> IsWhitespace(s[k])
    ensures forall c :: !IsWhitespace(c) ==> (c in r <==> c in s)
  {
    if |s| > 0 && IsWhitespace(s[|s| - 1]) then
      assert s == s[..|s| - 1] + [s[|s| - 1]];
      TrimEnd(s[..|s| - 1])
    else s
  }

  /** `String.trim()`: drops leading and trailing whitespace. Every
      non-whitespace character survives, no other character is added, and the
      result neither starts nor ends with whitespace. */
  function Trim(s: string): (r: string)
    ensures |r| <= |s|
    ensures |r| > 0 ==> !IsWhitespace(r[0]) && !IsWhitespace(r[|r| - 1])
    ensures forall c :: !IsWhitespace(c) ==> (c in r <==> c in s)
  {
    var t := TrimStart(s);
    var r := TrimEnd(t);
    assert |r| > 0 ==> r[0] == t[0];
    r
  }

  /** Trimming drops exactly the leading and the trailing whitespace: the
      result is a slice of the input with only whitespace around it. */
  lemma TrimIsSlice(s: string)
    ensures var r := Trim(s);
            exists i, j :: 0 <= i <= j <= |s| && r == s[i..j]
              && (forall k :: 0 <= k < i ==> IsWhitespace(s[k]))
              && (forall k :: j <= k < |s| ==> IsWhitespace(s[k]))
  {
    var t := TrimStart(s);
    var r := TrimEnd(t);
    var i := |s| - |t|;
    SliceOfSlice(s, t, r, i);
    assert Trim(s) == r;
    assert 0 <= i <= i + |r| <= |s| && r == s[i..i + |r|];
  }

  /** A prefix `r` of the suffix `t == s[i..]`, followed only by whitespace in
      `t`, is a slice of `s` followed only by whitespace in `s`. */
  lemma SliceOfSlice(s: string, t: string, r: string, i: nat)
    requires i <= |s| && t == s[i..] && |r| <= |t| && r == t[..|r|]
    requires forall k :: |r| <= k < |t| ==> IsWhitespace(t[k])
    ensures r == s[i..i + |r|]
    ensures forall k :: i + |r| <= k < |s| ==> IsWhitespace(s[k])
  {
    forall k | i + |r| <= k < |s|
      ensures IsWhitespace(s[k])
    {
      assert s[k] == t[k - i];
    }
  }

  /** Trimming twice is trimming once. */
  lemma TrimIdempotent(s: string)
    ensures Trim(Trim(s)) == Trim(s)
  {
    var r := Trim(s);
    TrimOfTrimmed(r);
  }

  /** A string that neither starts nor ends with whitespace is its own trim. */
  lemma TrimOfTrimmed(s: string)
    requires |s| > 0 ==> !IsWhitespace(s[0]) && !IsWhitespace(s[|s| - 1])
    ensures Trim(s) == s
  {
    assert TrimStart(s) == s;
    assert TrimEnd(s) == s;
  }

  /** `joinToString(sep)`. */
  function Join(parts: seq<string>, sep: string): string {
    if |parts| == 0 then ""
    else if |parts| == 1 then parts[0]
    else parts[0] + sep + Join(parts[1..], sep)
  }

  /** `split(sep)` with a one-character separator: the pieces between
      separators, always at least one, none containing the separator, and
      joining them back with the separator gives the input again. */
  function Split(s: string, sep: char): (parts: seq<string>)
    ensures |parts| >= 1
    ensures forall p :: p in parts ==> sep !in p
    ensures Join(parts, [sep]) == s
    decreases |s|
  {
    if |s| == 0 then [""]
    else
      var rest := Split(s[1..], sep);
      if s[0] == sep then
        assert s == [sep] + s[1..];
        [""] + rest
      else
        var head := [s[0]] + rest[0];
        assert sep !in head;
        var parts := [head] + rest[1..];
        assert Join(parts, [sep]) == [s[0]] + Join(rest, [sep]) by {
          if |rest| == 1 {
          } else {
            assert parts[1..] == rest[1..];
          }
        }
        assert s == [s[0]] + s[1..];
        parts
  }

  /** Splitting a separator-free string yields it alone. */
  lemma {:induction false} SplitNoSeparator(s: string, sep: char)
    requires sep !in s
    ensures Split(s, sep) == [s]
    decreases |s|
  {
    if |s| > 0 {
      SplitNoSeparator(s[1..], sep);
    }
  }

  /** Splitting `p + sep + rest` with a separator-free `p` peels off `p`. */
  lemma {:induction false} SplitCons(p: string, rest: string, sep: char)
    requires sep !in p
    ensures Split(p + [sep] + rest, sep) == [p] + Split(rest, sep)
    decreases |p|
  {
    var s := p + [sep] + rest;
    if |p| == 0 {
      assert s[1..] == rest;
    } else {
      assert s[1..] == p[1..] + [sep] + rest;
      SplitCons(p[1..], rest, sep);
      assert [p[0]] + p[1..] == p;
    }
  }

  /** Round trip: joining separator-free pieces and splitting again gives the
      pieces back. */
  lemma {:induction false} SplitJoin(parts: seq<string>, sep: char)
    requires |parts| >= 1
    requires forall p :: p in parts ==> sep !in p
    ensures Split(Join(parts, [sep]), sep) == parts
  {
    if |parts| == 1 {
      SplitNoSeparator(parts[0], sep);
    } else {
      SplitJoin(parts[1..], sep);
      SplitCons(parts[0], Join(parts[1..], [sep]), sep);
      assert parts == [parts[0]] + parts[1..];
    }
  }

  /** Kotlin's `removePrefix`: `s` without `prefix` when it starts with it,
      otherwise `s` unchanged. */
  function RemovePrefix(s: string, prefix: string): (r: string)
    ensures prefix <= s ==> prefix + r == s
    ensures !(prefix <= s) ==> r == s
  {
    if prefix <= s then
      assert prefix + s[|prefix|..] == s;
      s[|prefix|..]
    else s
  }

  /** The simple name of a dotted name: the text after the last '.'. */
  function SimpleName(qualified: string): (r: string)
    ensures '.' !in r
    ensures EndsWith(qualified, r)
    // nothing but the text after the last dot
    ensures |r| == |qualified| || qualified[|qualified| - |r| - 1] == '.'
  {
    var parts := Split(qualified, '.');
    LastPartIsSuffix(parts, '.');
    LastPartFollowsSeparator(parts, '.');
    parts[|parts| - 1]
  }

  lemma {:induction false} LastPartIsSuffix(parts: seq<string>, sep: char)
    requires |parts| >= 1
    ensures EndsWith(Join(parts, [sep]), parts[|parts| - 1])
  {
    if |parts| > 1 {
      LastPartIsSuffix(parts[1..], sep);
      var j := Join(parts[1..], [sep]);
      assert Join(parts, [sep]) == (parts[0] + [sep]) + j;
    }
  }

  /** In a join of several pieces, the last piece comes right after a separator. */
  lemma {:induction false} LastPartFollowsSeparator(parts: seq<string>, sep: char)
    requires |parts| >= 1
    ensures var j := Join(parts, [sep]);
            var last := parts[|parts| - 1];
            |parts| == 1 || (|j| >= |last| + 1 && j[|j| - |last| - 1] == sep)
  {
    if |parts| > 1 {
      LastPartFollowsSeparator(parts[1..], sep);
      var j := Join(parts[1..], [sep]);
      assert Join(parts, [sep]) == (parts[0] + [sep]) + j;
      if |parts| == 2 {
        assert j == parts[1];
      }
    }
  }

  /** `equals(ignoreCase = true)` relates a string to its lower-cased form. */
  lemma LowercaseEqualsIgnoreCase(s: string)
    ensures EqualsIgnoreCase(Lowercase(s), s)
  {
    forall i | 0 <= i < |s|
      ensures CharEqualsIgnoreCase(Lowercase(s)[i], s[i])
    {
    }
  }
}
