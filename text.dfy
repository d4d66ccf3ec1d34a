/**
 * String helpers with JavaScript's meaning: `String.prototype.includes`,
 * the regular-expression class `\s` (which is also the set `parseFloat`
 * skips), `s.replace(/\s+/g, '_')`, and `join`/`split` on a separator.
 */
module Text {

  /** JavaScript white space and line terminators: the class `\s`. */
  predicate IsWhitespace(c: char)
  {
    || c == ' ' || c == '\t' || c == '\n' || c == '\r'
    || c == '\U{000B}' || c == '\U{000C}' || c == '\U{00A0}' || c == '\U{1680}'
    || ('\U{2000}' <= c <= '\U{200A}')
    || c == '\U{2028}' || c == '\U{2029}' || c == '\U{202F}' || c == '\U{205F}'
    || c == '\U{3000}' || c == '\U{FEFF}'
  }

  predicate NoWhitespace(s: string)
  {
    forall i :: 0 <= i < |s| ==> !IsWhitespace(s[i])
  }

  predicate AllWhitespace(s: string)
  {
    forall i :: 0 <= i < |s| ==> IsWhitespace(s[i])
  }

  predicate StartsWith(s: string, prefix: string)
  {
    |prefix| <= |s| && s[..|prefix|] == prefix
  }

  /** `s.includes(t)`, scanning for a match from the left. */
  predicate Includes(s: string, t: string)
    decreases |s|
  {
    StartsWith(s, t) || (|s| > 0 && Includes(s[1..], t))
  }

  /** `t` occurs in `s` starting at position `i`. */
  predicate OccursAt(s: string, t: string, i: int)
  {
    0 <= i <= |s| - |t| && s[i..i + |t|] == t
  }

  /** `Includes` agrees with "`t` occurs at some position of `s`". */
  lemma {:induction false} IncludesIffOccurs(s: string, t: string)
    ensures Includes(s, t) <==> exists i :: OccursAt(s, t, i)
    decreases |s|
  {
    if StartsWith(s, t) {
      assert OccursAt(s, t, 0);
    } else if |s| > 0 {
      IncludesIffOccurs(s[1..], t);
      var u := s[1..];
      if exists i :: OccursAt(u, t, i) {
        var i :| OccursAt(u, t, i);
        assert s[i + 1..i + 1 + |t|] == u[i..i + |t|];
        assert OccursAt(s, t, i + 1);
      }
      if exists i :: OccursAt(s, t, i) {
        var i :| OccursAt(s, t, i);
        assert i != 0;
        assert u[i - 1..i - 1 + |t|] == s[i..i + |t|];
        assert OccursAt(u, t, i - 1);
      }
    }
  }

  /** Drops the white space at the front of `s`. */
  function TrimStart(s: string): (t: string)
    ensures |t| <= |s|
  {
    if |s| > 0 && IsWhitespace(s[0]) then TrimStart(s[1..]) else s
  }

  /** What `TrimStart` removes is white space, what it keeps is the rest. */
  lemma {:induction false} TrimStartSplits(s: string)
    ensures var t := TrimStart(s);
            && t == s[|s| - |t|..]
            && AllWhitespace(s[..|s| - |t|])
            && (t == [] || !IsWhitespace(t[0]))
  {
    if |s| > 0 && IsWhitespace(s[0]) {
      TrimStartSplits(s[1..]);
      var t := TrimStart(s);
      assert s[..|s| - |t|] == [s[0]] + s[1..][..|s| - 1 - |t|];
    }
  }

  /** `s.replace(/\s+/g, '_')`: every maximal run of white space becomes one underscore. */
  function ReplaceWhitespaceRuns(s: string): (r: string)
    ensures NoWhitespace(r)
    decreases |s|
  {
    if s == [] then []
    else if IsWhitespace(s[0]) then
      var rest := TrimStart(s);
      "_" + ReplaceWhitespaceRuns(rest)
    else [s[0]] + ReplaceWhitespaceRuns(s[1..])
  }

  /** A string without white space is left as it is. */
  lemma {:induction false} ReplaceWithoutWhitespace(s: string)
    requires NoWhitespace(s)
    ensures ReplaceWhitespaceRuns(s) == s
  {
    if s != [] {
      ReplaceWithoutWhitespace(s[1..]);
    }
  }

  /** A run of white space between two words becomes exactly one underscore. */
  lemma {:induction false} ReplaceOneRun(word: string, run: string, rest: string)
    requires NoWhitespace(word)
    requires |run| > 0 && AllWhitespace(run)
    requires rest == [] || !IsWhitespace(rest[0])
    ensures ReplaceWhitespaceRuns(word + run + rest) == word + "_" + ReplaceWhitespaceRuns(rest)
    decreases |word|
  {
    var s := word + run + rest;
    if word == [] {
      assert s == run + rest && IsWhitespace(s[0]);
      TrimRun(run, rest);
      assert ReplaceWhitespaceRuns(s) == "_" + ReplaceWhitespaceRuns(rest);
    } else {
      assert s[0] == word[0] && !IsWhitespace(s[0]);
      assert s[1..] == word[1..] + run + rest;
      ReplaceOneRun(word[1..], run, rest);
      assert ReplaceWhitespaceRuns(s) == [word[0]] + ReplaceWhitespaceRuns(s[1..]);
      assert [word[0]] + (word[1..] + "_" + ReplaceWhitespaceRuns(rest)) == word + "_" + ReplaceWhitespaceRuns(rest);
    }
  }

  lemma {:induction false} TrimRun(run: string, rest: string)
    requires AllWhitespace(run)
    requires rest == [] || !IsWhitespace(rest[0])
    ensures TrimStart(run + rest) == rest
  {
    if run != [] {
      assert (run + rest)[1..] == run[1..] + rest;
      TrimRun(run[1..], rest);
    }
  }

  /** `lines.join(sep)`. */
  function Join(lines: seq<string>, sep: char): string
  {
    if lines == [] then ""
    else if |lines| == 1 then lines[0]
    else lines[0] + [sep] + Join(lines[1..], sep)
  }

  /** Index of the first `c` in `s`. */
  function IndexOf(s: string, c: char): (i: nat)
    requires c in s
    ensures i < |s| && s[i] == c && c !in s[..i]
  {
    if s[0] == c then 0 else 1 + IndexOf(s[1..], c)
  }

  /** `s.split(sep)`. */
  function Split(s: string, sep: char): (parts: seq<string>)
    ensures |parts| > 0
    decreases |s|
  {
    if sep !in s then [s]
    else
      var i := IndexOf(s, sep);
      [s[..i]] + Split(s[i + 1..], sep)
  }

  /** Splitting a joined list of separator-free lines gives the lines back. */
  lemma {:induction false} SplitJoin(lines: seq<string>, sep: char)
    requires |lines| > 0
    requires forall k :: 0 <= k < |lines| ==> sep !in lines[k]
    ensures Split(Join(lines, sep), sep) == lines
  {
    if |lines| > 1 {
      var s := Join(lines, sep);
      var head := lines[0];
      assert s == head + [sep] + Join(lines[1..], sep);
      assert s[|head|] == sep && s[..|head|] == head;
      IndexOfAfter(head, sep, Join(lines[1..], sep));
      assert s[|head| + 1..] == Join(lines[1..], sep);
      SplitJoin(lines[1..], sep);
    }
  }

  lemma {:induction false} IndexOfAfter(a: string, c: char, b: string)
    requires c !in a
    ensures IndexOf(a + [c] + b, c) == |a|
  {
    if a != [] {
      assert (a + [c] + b)[1..] == a[1..] + [c] + b;
      IndexOfAfter(a[1..], c, b);
    }
  }

  /** The first piece of a split is the text before the first separator. */
  lemma SplitFirst(a: string, c: char, b: string)
    requires c !in a
    ensures Split(a + [c] + b, c)[0] == a
  {
    var s := a + [c] + b;
    assert s[|a|] == c;
    IndexOfAfter(a, c, b);
    assert s[..|a|] == a;
  }
}
