/** The few .NET string operations the core relies on, on strings as sequences of chars. */
module Strings {
  import opened Wrappers

  /** char.IsWhiteSpace: the Unicode space, line and paragraph separators plus U+0009..U+000D and U+0085. */
  predicate IsWhiteSpace(c: char) {
    var n := c as int;
    (9 <= n <= 13) || n == 0x20 || n == 0x85 || n == 0xA0 || n == 0x1680
    || (0x2000 <= n <= 0x200A) || n == 0x2028 || n == 0x2029 || n == 0x202F
    || n == 0x205F || n == 0x3000
  }

  /** string.IsNullOrWhiteSpace: null, empty, or whitespace only. */
  predicate IsNullOrWhiteSpace(s: Option<string>) {
    s.None? || forall i | 0 <= i < |s.value| :: IsWhiteSpace(s.value[i])
  }

  /** string.Trim(): drops leading and trailing whitespace. */
  function Trim(s: string): (r: string)
    ensures |r| <= |s|
    ensures r == [] || (!IsWhiteSpace(r[0]) && !IsWhiteSpace(r[|r| - 1]))
    ensures (forall i | 0 <= i < |s| :: !IsWhiteSpace(s[i])) ==> r == s
  {
    TrimEnd(TrimStart(s))
  }

  function TrimStart(s: string): (r: string)
    ensures |r| <= |s| && r == s[|s| - |r|..]
    ensures r == [] || !IsWhiteSpace(r[0])
  {
    if s != [] && IsWhiteSpace(s[0]) then TrimStart(s[1..]) else s
  }

  function TrimEnd(s: string): (r: string)
    ensures |r| <= |s| && r == s[..|r|]
    ensures r == [] || !IsWhiteSpace(r[|r| - 1])
    ensures s != [] && !IsWhiteSpace(s[0]) ==> r != [] && r[0] == s[0]
  {
    if s != [] && IsWhiteSpace(s[|s| - 1]) then TrimEnd(s[..|s| - 1]) else s
  }

  /** string.Split(sep): the pieces between separators, empty pieces included. */
  function Split(s: string, sep: char): (r: seq<string>)
    ensures |r| >= 1
    ensures forall i | 0 <= i < |r| :: sep !in r[i]
  {
    if s == [] then [""]
    else
      var rest := Split(s[1..], sep);
      if s[0] == sep then [""] + rest else [[s[0]] + rest[0]] + rest[1..]
  }

  /** The pieces joined back with the separator in between. */
  function Join(parts: seq<string>, sep: char): string {
    if parts == [] then ""
    else if |parts| == 1 then parts[0]
    else parts[0] + [sep] + Join(parts[1..], sep)
  }

  /** StringSplitOptions.RemoveEmptyEntries: drop the empty pieces. */
  function NonEmpty(parts: seq<string>): (r: seq<string>)
    ensures forall i | 0 <= i < |r| :: r[i] != "" && r[i] in parts
    ensures forall p | p in parts && p != "" :: p in r
  {
    if parts == [] then []
    else if parts[0] == "" then NonEmpty(parts[1..])
    else [parts[0]] + NonEmpty(parts[1..])
  }

  /** Split is the inverse of Join for separator-free pieces. */
  lemma {:induction false} SplitJoin(parts: seq<string>, sep: char)
    requires |parts| >= 1
    requires forall i | 0 <= i < |parts| :: sep !in parts[i]
    ensures Split(Join(parts, sep), sep) == parts
  {
    if |parts| == 1 {
      SplitNoSep(parts[0], sep);
    } else {
      SplitJoin(parts[1..], sep);
      SplitPrefix(parts[0], Join(parts[1..], sep), sep);
      assert Join(parts, sep) == parts[0] + ([sep] + Join(parts[1..], sep));
      assert [parts[0]] + parts[1..] == parts;
    }
  }

  lemma {:induction false} SplitNoSep(s: string, sep: char)
    requires sep !in s
    ensures Split(s, sep) == [s]
  {
    if s != [] {
      SplitNoSep(s[1..], sep);
      assert [s[0]] + s[1..] == s;
    }
  }

  /** Splitting separator-free pieces joined and followed by a separator and `b`. */
  lemma {:induction false} SplitJoinPrefix(parts: seq<string>, b: string, sep: char)
    requires |parts| >= 1
    requires forall i | 0 <= i < |parts| :: sep !in parts[i]
    ensures Split(Join(parts, sep) + [sep] + b, sep) == parts + Split(b, sep)
  {
    if |parts| == 1 {
      SplitPrefix(parts[0], b, sep);
    } else {
      var head, tail := parts[0], parts[1..];
      var rest := Join(tail, sep) + [sep] + b;
      assert forall i | 0 <= i < |tail| :: sep !in tail[i] by {
        forall i | 0 <= i < |tail| ensures sep !in tail[i] {
          assert tail[i] == parts[i + 1];
        }
      }
      calc {
        Split(Join(parts, sep) + [sep] + b, sep);
        { assert Join(parts, sep) == head + [sep] + Join(tail, sep);
          assert Join(parts, sep) + [sep] + b == head + [sep] + rest; }
        Split(head + [sep] + rest, sep);
        { SplitPrefix(head, rest, sep); }
        [head] + Split(rest, sep);
        { SplitJoinPrefix(tail, b, sep); }
        [head] + (tail + Split(b, sep));
        { assert parts == [head] + tail; }
        parts + Split(b, sep);
      }
    }
  }

  /** Splitting `a + sep + b`, where `a` holds no separator, yields `a` then the pieces of `b`. */
  lemma {:induction false} SplitPrefix(a: string, b: string, sep: char)
    requires sep !in a
    ensures Split(a + [sep] + b, sep) == [a] + Split(b, sep)
  {
    if a == [] {
      assert a + [sep] + b == [sep] + b;
      assert ([sep] + b)[1..] == b;
    } else {
      var s := a + [sep] + b;
      assert s[0] == a[0];
      assert s[1..] == a[1..] + [sep] + b;
      SplitPrefix(a[1..], b, sep);
      assert [a[0]] + a[1..] == a;
    }
  }
}
