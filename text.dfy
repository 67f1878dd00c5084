/**
 * The string operations of Rust's standard library that the interpreter
 * relies on: `str::split` on one character, `str::trim`, `str::contains`
 * and joining pieces with a separator.
 */
module Text {

  /** Rust's `char::is_whitespace`: the Unicode White_Space property. */
  predicate IsWhitespace(c: char) {
    || ('\U{0009}' <= c <= '\U{000D}')
    || c == ' '
    || c == '\U{0085}'
    || c == '\U{00A0}'
    || c == '\U{1680}'
    || ('\U{2000}' <= c <= '\U{200A}')
    || c == '\U{2028}'
    || c == '\U{2029}'
    || c == '\U{202F}'
    || c == '\U{205F}'
    || c == '\U{3000}'
  }

  predicate AllWhitespace(s: string) {
    forall i :: 0 <= i < |s| ==> IsWhitespace(s[i])
  }

  /** Neither end of `s` is whitespace. */
  predicate IsTrimmed(s: string) {
    s == [] || (!IsWhitespace(s[0]) && !IsWhitespace(s[|s| - 1]))
  }

  /** The pieces joined back together with `c` between neighbours. */
  function Join(pieces: seq<string>, c: char): string
  {
    if |pieces| == 0 then ""
    else if |pieces| == 1 then pieces[0]
    else pieces[0] + [c] + Join(pieces[1..], c)
  }

  /**
   * Rust's `s.split(c)`: the maximal runs of `s` between occurrences of
   * `c`. There is always at least one piece, and empty pieces are kept
   * (so "" splits into [""] and "a,,b" into ["a", "", "b"]).
   */
  function SplitOn(s: string, c: char): (pieces: seq<string>)
    ensures |pieces| >= 1
    ensures forall i :: 0 <= i < |pieces| ==> c !in pieces[i]
    ensures Join(pieces, c) == s
  {
    if s == [] then [""]
    else
      var rest := SplitOn(s[1..], c);
      if s[0] == c then
        assert Join([""] + rest, c) == [c] + Join(rest, c) by {
          assert ([""] + rest)[1..] == rest;
        }
        [""] + rest
      else
        var first := [s[0]] + rest[0];
        assert Join([first] + rest[1..], c) == [s[0]] + Join(rest, c) by {
          if |rest| > 1 {
            assert ([first] + rest[1..])[1..] == rest[1..];
          }
        }
        [first] + rest[1..]
  }

  /** `u` followed by `c` splits into the pieces of `u` and then those of what follows. */
  lemma {:induction false} SplitOnConcat(u: string, c: char, v: string)
    ensures SplitOn(u + [c] + v, c) == SplitOn(u, c) + SplitOn(v, c)
  {
    if u == [] {
      assert u + [c] + v == [c] + v;
      assert ([c] + v)[1..] == v;
    } else {
      assert (u + [c] + v)[1..] == u[1..] + [c] + v;
      SplitOnConcat(u[1..], c, v);
    }
  }

  /** Splitting text with no separator in it gives the text itself. */
  lemma {:induction false} SplitOnNoSeparator(u: string, c: char)
    requires c !in u
    ensures SplitOn(u, c) == [u]
  {
    if u != [] {
      SplitOnNoSeparator(u[1..], c);
    }
  }

  /** Splitting undoes joining, for pieces that do not contain the separator. */
  lemma {:induction false} SplitOnJoin(pieces: seq<string>, c: char)
    requires |pieces| >= 1
    requires forall i :: 0 <= i < |pieces| ==> c !in pieces[i]
    ensures SplitOn(Join(pieces, c), c) == pieces
  {
    if |pieces| == 1 {
      SplitOnNoSeparator(pieces[0], c);
    } else {
      SplitOnConcat(pieces[0], c, Join(pieces[1..], c));
      SplitOnNoSeparator(pieces[0], c);
      SplitOnJoin(pieces[1..], c);
    }
  }

  /** Rust's `trim_start`: `s` without its leading whitespace. */
  function TrimStart(s: string): (r: string)
    ensures r == [] || !IsWhitespace(r[0])
  {
    if s != [] && IsWhitespace(s[0]) then TrimStart(s[1..]) else s
  }

  /** Rust's `trim_end`: `s` without its trailing whitespace. */
  function TrimEnd(s: string): (r: string)
    ensures r == [] || !IsWhitespace(r[|r| - 1])
    ensures |r| <= |s| && (r != [] ==> r[0] == s[0])
  {
    if s != [] && IsWhitespace(s[|s| - 1]) then TrimEnd(s[..|s| - 1]) else s
  }

  /** Rust's `trim`: the part of `s` between its leading and its trailing whitespace. */
  function Trim(s: string): (r: string)
    ensures IsTrimmed(r)
  {
    TrimEnd(TrimStart(s))
  }

  /** What `trim_start` removes is whitespace. */
  lemma {:induction false} TrimStartSplit(s: string) returns (lead: string)
    ensures s == lead + TrimStart(s) && AllWhitespace(lead)
  {
    if s != [] && IsWhitespace(s[0]) {
      var rest := TrimStartSplit(s[1..]);
      lead := [s[0]] + rest;
      assert s == [s[0]] + s[1..];
    } else {
      lead := "";
    }
  }

  /** What `trim_end` removes is whitespace. */
  lemma {:induction false} TrimEndSplit(s: string) returns (trail: string)
    ensures s == TrimEnd(s) + trail && AllWhitespace(trail)
  {
    if s != [] && IsWhitespace(s[|s| - 1]) {
      var rest := TrimEndSplit(s[..|s| - 1]);
      trail := rest + [s[|s| - 1]];
      assert s == s[..|s| - 1] + [s[|s| - 1]];
    } else {
      trail := "";
    }
  }

  /** `s` is its trimmed text with only whitespace before and after it. */
  lemma TrimSplit(s: string) returns (lead: string, trail: string)
    ensures s == lead + Trim(s) + trail
    ensures AllWhitespace(lead) && AllWhitespace(trail)
  {
    lead := TrimStartSplit(s);
    trail := TrimEndSplit(TrimStart(s));
  }

  /** Trimming leaves nothing exactly when the text is all whitespace. */
  lemma TrimEmpty(s: string)
    ensures Trim(s) == [] <==> AllWhitespace(s)
  {
    var lead, trail := TrimSplit(s);
    if Trim(s) != [] {
      assert s[|lead|] == Trim(s)[0];
    } else {
      assert s == lead + trail;
    }
  }

  /** Trimming already trimmed text changes nothing. */
  lemma TrimTrimmed(s: string)
    requires IsTrimmed(s)
    ensures Trim(s) == s
  {
  }

  /** `pattern` occurs somewhere in `s` (Rust's `str::contains` with a `&str` pattern). */
  predicate Contains(s: string, pattern: string)
    decreases |s|
  {
    if |s| < |pattern| then false
    else s[..|pattern|] == pattern || Contains(s[1..], pattern)
  }

  /** `pattern` occurs in `s` at position `i`. */
  predicate OccursAt(s: string, pattern: string, i: nat) {
    i + |pattern| <= |s| && s[i..i + |pattern|] == pattern
  }

  lemma OccursAtTail(s: string, pattern: string, i: nat)
    requires s != []
    ensures OccursAt(s, pattern, i + 1) <==> OccursAt(s[1..], pattern, i)
  {
    if i + 1 + |pattern| <= |s| {
      assert s[i + 1..i + 1 + |pattern|] == s[1..][i..i + |pattern|];
    }
  }

  /** `Contains` holds exactly when the pattern occurs at some position of `s`. */
  lemma {:induction false} ContainsAt(s: string, pattern: string)
    ensures Contains(s, pattern) <==> exists i: nat :: OccursAt(s, pattern, i)
    decreases |s|
  {
    if |s| < |pattern| {
    } else if s[..|pattern|] == pattern {
      assert OccursAt(s, pattern, 0);
    } else {
      var t := s[1..];
      ContainsAt(t, pattern);
      if Contains(t, pattern) {
        var j: nat :| OccursAt(t, pattern, j);
        OccursAtTail(s, pattern, j);
      }
      if exists i: nat :: OccursAt(s, pattern, i) {
        var i: nat :| OccursAt(s, pattern, i);
        assert i != 0;
        OccursAtTail(s, pattern, i - 1);
      }
    }
  }
}
