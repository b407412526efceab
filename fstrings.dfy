/**
 * The parts of the engine's string type (`FString`) that the plugin relies on.
 * Searching, replacing and comparing ignore case by default; the model folds
 * ASCII letters only.
 */
module FStrings {
  import opened Common

  /** Lower-case an ASCII letter; every other character is its own fold. */
  function ToLower(c: char): char
  {
    if 'A' <= c <= 'Z' then (c as int + 32) as char else c
  }

  /** Case-insensitive equality, as `FString ==` compares. */
  predicate EqualsIgnoreCase(a: string, b: string)
    ensures a == b ==> EqualsIgnoreCase(a, b)
    ensures EqualsIgnoreCase(a, b) ==> |a| == |b|
  {
    |a| == |b| && forall i :: 0 <= i < |a| ==> ToLower(a[i]) == ToLower(b[i])
  }

  /** `pattern` occurs, ignoring case, at position `i` of `s`. */
  predicate MatchesAt(s: string, i: nat, pattern: string)
  {
    i + |pattern| <= |s| && EqualsIgnoreCase(s[i..i + |pattern|], pattern)
  }

  /** `FString::Contains` with its default case-insensitive search. */
  predicate Contains(s: string, pattern: string)
    ensures pattern == [] ==> Contains(s, pattern)
    ensures Contains(s, pattern) ==> |pattern| <= |s|
  {
    assert pattern == [] ==> s[0..0] == pattern && MatchesAt(s, 0, pattern);
    exists i: nat | i <= |s| :: MatchesAt(s, i, pattern)
  }

  /**
   * `FString::Replace` with its default case-insensitive search: scan from the
   * start, replace the leftmost occurrence, continue after it. An empty
   * `from` leaves the string as it is, and so does a string in which `from`
   * does not occur.
   */
  function Replace(s: string, from: string, to: string): (r: string)
    ensures from == [] ==> r == s
    ensures !Contains(s, from) ==> r == s
    decreases |s|
  {
    if from == [] || |s| < |from| then s
    else if MatchesAt(s, 0, from) then to + Replace(s[|from|..], from, to)
    else
      ContainsTail(s, from);
      assert [s[0]] + s[1..] == s;
      [s[0]] + Replace(s[1..], from, to)
  }

  /** An occurrence in the tail of `s` is an occurrence in `s`. */
  lemma ContainsTail(s: string, pattern: string)
    requires s != []
    ensures Contains(s[1..], pattern) ==> Contains(s, pattern)
  {
    if Contains(s[1..], pattern) {
      var i: nat :| i <= |s[1..]| && MatchesAt(s[1..], i, pattern);
      assert i + |pattern| <= |s[1..]|;
      assert s[1..][i..i + |pattern|] == s[i + 1..i + 1 + |pattern|];
      assert MatchesAt(s, i + 1, pattern);
    }
  }

  /** Whoever contains `p + q` contains `p`. */
  lemma ContainsPrefixOf(s: string, p: string, q: string)
    requires Contains(s, p + q)
    ensures Contains(s, p)
  {
    var i: nat :| i <= |s| && MatchesAt(s, i, p + q);
    assert i + |p + q| <= |s|;
    var w := s[i..i + |p + q|];
    forall k | 0 <= k < |p|
      ensures ToLower(s[i..i + |p|][k]) == ToLower(p[k])
    {
      assert s[i..i + |p|][k] == w[k];
      assert (p + q)[k] == p[k];
    }
    assert MatchesAt(s, i, p);
  }

  /** A prefix that equals `from` up to case is replaced first. */
  lemma ReplaceAtFront(prefix: string, rest: string, from: string, to: string)
    requires from != [] && EqualsIgnoreCase(prefix, from)
    requires !Contains(rest, from)
    ensures Replace(prefix + rest, from, to) == to + rest
  {
    var s := prefix + rest;
    assert s[..|from|] == prefix;
    assert MatchesAt(s, 0, from);
    assert s[|from|..] == rest;
  }

  /**
   * Replacing a single non-letter character: only that character changes,
   * into `d`; nothing is added or lost.
   */
  lemma {:induction false} ReplaceCharPointwise(s: string, c: char, d: char)
    requires !('A' <= c <= 'Z') && !('a' <= c <= 'z')
    ensures |Replace(s, [c], [d])| == |s|
    ensures forall k :: 0 <= k < |s| ==> Replace(s, [c], [d])[k] == if s[k] == c then d else s[k]
    decreases |s|
  {
    if s != [] {
      var r := Replace(s, [c], [d]);
      var tail := Replace(s[1..], [c], [d]);
      ReplaceCharPointwise(s[1..], c, d);
      assert s[0..1] == [s[0]];
      assert MatchesAt(s, 0, [c]) <==> s[0] == c by {
        assert ToLower(s[0]) == c <==> s[0] == c;
      }
      assert s[1..] == s[|[c]|..];
      assert r == [if s[0] == c then d else s[0]] + tail;
    }
  }

  /**
   * `FString::RemoveFromEnd`: drop one trailing copy of `suffix` (compared
   * ignoring case) when there is one; an empty suffix removes nothing.
   */
  function RemoveFromEnd(s: string, suffix: string): (r: string)
    ensures suffix != [] && |suffix| <= |s| && EqualsIgnoreCase(s[|s| - |suffix|..], suffix)
      ==> |r| == |s| - |suffix| && s == r + s[|r|..]
    ensures !(suffix != [] && |suffix| <= |s| && EqualsIgnoreCase(s[|s| - |suffix|..], suffix))
      ==> r == s
  {
    if suffix != [] && |suffix| <= |s| && EqualsIgnoreCase(s[|s| - |suffix|..], suffix)
    then s[..|s| - |suffix|]
    else s
  }

  // ----- Decimal text of integers (FString::FromInt) -----

  function DigitChar(d: nat): char
    requires d < 10
  {
    ('0' as int + d) as char
  }

  function DigitValue(c: char): int
  {
    c as int - '0' as int
  }

  /** Decimal digits of a natural number, most significant first, no leading zeros. */
  function NatToDecimal(n: nat): (r: string)
    ensures r != []
    ensures r[0] == '0' <==> n == 0
    ensures |r| > 1 ==> r[0] != '0'
    ensures forall k :: 0 <= k < |r| ==> '0' <= r[k] <= '9'
    decreases n
  {
    if n < 10 then [DigitChar(n)] else NatToDecimal(n / 10) + [DigitChar(n % 10)]
  }

  /** `FString::FromInt`: the `%d` text of an `int32`. */
  function FromInt(i: int32): (r: string)
    ensures r != []
    ensures r[0] == '-' <==> i < 0
    ensures forall k :: (if i < 0 then 1 else 0) <= k < |r| ==> '0' <= r[k] <= '9'
    ensures i < 0 ==> |r| > 1 && r[1] != '0'
    ensures i >= 0 && |r| > 1 ==> r[0] != '0'
    ensures r == "0" <==> i == 0
  {
    if i < 0 then "-" + NatToDecimal(-(i as int)) else NatToDecimal(i)
  }

  /** Reading decimal digits back, most significant first. */
  function ParseNat(s: string): int
  {
    if s == [] then 0 else ParseNat(s[..|s| - 1]) * 10 + DigitValue(s[|s| - 1])
  }

  /** Reading the text of an optionally negative integer back. */
  function ParseInt(s: string): int
  {
    if s != [] && s[0] == '-' then -ParseNat(s[1..]) else ParseNat(s)
  }

  lemma {:induction false} NatToDecimalRoundTrip(n: nat)
    ensures ParseNat(NatToDecimal(n)) == n
    decreases n
  {
    var r := NatToDecimal(n);
    if n < 10 {
      assert r[..|r| - 1] == [];
    } else {
      NatToDecimalRoundTrip(n / 10);
      assert r[..|r| - 1] == NatToDecimal(n / 10);
    }
  }

  /** `FromInt` loses nothing: its text reads back as the same integer. */
  lemma FromIntRoundTrip(i: int32)
    ensures ParseInt(FromInt(i)) == i
  {
    if i < 0 {
      NatToDecimalRoundTrip(-(i as int));
      assert FromInt(i)[1..] == NatToDecimal(-(i as int));
    } else {
      NatToDecimalRoundTrip(i);
    }
  }

  // ----- Comma-separated lists -----

  /** The elements of `parts` with `sep` between each two neighbours. */
  function Join(parts: seq<string>, sep: string): string
  {
    if |parts| == 0 then ""
    else if |parts| == 1 then parts[0]
    else parts[0] + sep + Join(parts[1..], sep)
  }

  /** Appending one element to a non-empty list appends a separator and it. */
  lemma {:induction false} JoinSnoc(parts: seq<string>, x: string, sep: string)
    requires parts != []
    ensures Join(parts + [x], sep) == Join(parts, sep) + sep + x
    decreases |parts|
  {
    if |parts| == 1 {
      assert (parts + [x])[1..] == [x];
    } else {
      assert (parts + [x])[1..] == parts[1..] + [x];
      JoinSnoc(parts[1..], x, sep);
    }
  }

  /** Splitting at every `c`; the result always has at least one field. */
  function Split(s: string, c: char): (r: seq<string>)
    ensures r != []
    decreases |s|
  {
    if s == [] then [""]
    else if s[0] == c then [""] + Split(s[1..], c)
    else var t := Split(s[1..], c); [[s[0]] + t[0]] + t[1..]
  }

  lemma {:induction false} SplitAfterField(a: string, b: string, c: char)
    requires c !in a
    ensures Split(a + [c] + b, c) == [a] + Split(b, c)
    decreases |a|
  {
    if a == [] {
      assert ([c] + b)[1..] == b;
    } else {
      assert (a + [c] + b)[1..] == a[1..] + [c] + b;
      SplitAfterField(a[1..], b, c);
      assert [a[0]] + a[1..] == a;
    }
  }

  lemma {:induction false} SplitNoSeparator(a: string, c: char)
    requires c !in a
    ensures Split(a, c) == [a]
    decreases |a|
  {
    if a != [] {
      SplitNoSeparator(a[1..], c);
      assert [a[0]] + a[1..] == a;
    }
  }

  /** Joining with `,` is undone by splitting at `,` when no element holds a comma. */
  lemma {:induction false} JoinSplitRoundTrip(parts: seq<string>)
    requires parts != []
    requires forall k :: 0 <= k < |parts| ==> ',' !in parts[k]
    ensures Split(Join(parts, ","), ',') == parts
    decreases |parts|
  {
    if |parts| == 1 {
      SplitNoSeparator(parts[0], ',');
    } else {
      JoinSplitRoundTrip(parts[1..]);
      assert parts[0] + "," + Join(parts[1..], ",") == parts[0] + [','] + Join(parts[1..], ",");
      SplitAfterField(parts[0], Join(parts[1..], ","), ',');
      assert [parts[0]] + parts[1..] == parts;
    }
  }
}
