/** The query cleaning both adapters apply before classifying:
    `re.sub(r'\s+', ' ', text.lower()).strip()`.

    Python's Unicode tables are not reproduced. They enter as a `CharTables`
    value: `isSpace` is the whitespace class shared by `\s` and `str.strip()`,
    and `lower` is the per-code-point lowercase mapping, which may expand one
    code point into several. The context-dependent Final_Sigma rule of
    `str.lower()` is outside such a map (see `Lower`). */
module Normalize {

  datatype CharTables = CharTables(isSpace: char -> bool, lower: char -> seq<char>)

  /** Facts about Python's tables that the idempotence and emptiness results rely on. */
  ghost predicate PythonLike(t: CharTables) {
    // the replacement character is itself whitespace
    && t.isSpace(' ')
    // whitespace characters have no case
    && (forall c :: t.isSpace(c) ==> t.lower(c) == [c])
    // lowercasing never deletes a character
    && (forall c :: t.lower(c) != [])
    // whatever lowercasing produces is already lower case
    && (forall c, d :: d in t.lower(c) ==> t.lower(d) == [d])
    // lowercasing a non-whitespace character never produces whitespace
    && (forall c, d :: d in t.lower(c) && t.isSpace(d) ==> t.isSpace(c))
  }

  predicate IsBlank(t: CharTables, s: string) {
    forall i :: 0 <= i < |s| ==> t.isSpace(s[i])
  }

  /** No character of `s` changes under lowercasing: `s.lower() == s` character by character. */
  predicate IsLowercase(t: CharTables, s: string) {
    forall i :: 0 <= i < |s| ==> t.lower(s[i]) == [s[i]]
  }

  /** The shape of a cleaned query: no whitespace at either end, every whitespace
      character is a plain space, and no two whitespace characters are adjacent. */
  predicate Normalized(t: CharTables, s: string) {
    && Trimmed(t, s)
    && (forall i :: 0 <= i < |s| && t.isSpace(s[i]) ==> s[i] == ' ')
    && (forall i :: 0 <= i < |s| - 1 ==> !(t.isSpace(s[i]) && t.isSpace(s[i + 1])))
  }

  /** No whitespace at either end. */
  predicate Trimmed(t: CharTables, s: string) {
    s != [] ==> !t.isSpace(s[0]) && !t.isSpace(s[|s| - 1])
  }

  // ---------------------------------------------------------------------------
  // The cleaning expression, operation by operation

  /** `str.lower()`, taken code point by code point: every code point is replaced by its
      lowercase mapping. CPython's one context-dependent rule, Final_Sigma (U+03A3 lowers
      to U+03C2 at the end of a word and to U+03C3 elsewhere), is not captured by a
      per-code-point map. A text already fixed by the mapping comes back unchanged. */
  function Lower(t: CharTables, s: string): (r: string)
    ensures IsLowercase(t, s) ==> r == s
  {
    if s == [] then [] else t.lower(s[0]) + Lower(t, s[1..])
  }

  /** Drops the maximal leading run of whitespace. */
  function SkipSpaces(t: CharTables, s: string): (r: string)
    ensures |r| <= |s| && r == s[|s| - |r|..]
    ensures forall i :: 0 <= i < |s| - |r| ==> t.isSpace(s[i])
    ensures r == [] || !t.isSpace(r[0])
    ensures s != [] && t.isSpace(s[0]) ==> |r| < |s|
  {
    if s != [] && t.isSpace(s[0]) then SkipSpaces(t, s[1..]) else s
  }

  /** Drops the maximal trailing run of whitespace. */
  function SkipTrailingSpaces(t: CharTables, s: string): (r: string)
    ensures |r| <= |s| && r == s[..|r|]
    ensures forall i :: |r| <= i < |s| ==> t.isSpace(s[i])
    ensures r == [] || !t.isSpace(r[|r| - 1])
  {
    if s != [] && t.isSpace(s[|s| - 1]) then SkipTrailingSpaces(t, s[..|s| - 1]) else s
  }

  /** `re.sub(r'\s+', ' ', s)`: each maximal run of whitespace, scanned left to
      right, is replaced by one space. */
  function Collapse(t: CharTables, s: string): (r: string)
    ensures |r| <= |s|
    ensures r == [] <==> s == []
    decreases |s|
  {
    if s == [] then []
    else if t.isSpace(s[0]) then [' '] + Collapse(t, SkipSpaces(t, s))
    else [s[0]] + Collapse(t, s[1..])
  }

  /** `str.strip()` with no argument: the result has no whitespace at either end and is
      no longer than the input. */
  function Strip(t: CharTables, s: string): (r: string)
    ensures Trimmed(t, r) && |r| <= |s|
  {
    SkipTrailingSpaces(t, SkipSpaces(t, s))
  }

  /** Stripping leaves nothing exactly when the input is all whitespace. */
  lemma StripEmptyIff(t: CharTables, s: string)
    ensures Strip(t, s) == [] <==> IsBlank(t, s)
  {
    var u := SkipSpaces(t, s);
    if u != [] {
      assert u[0] == s[|s| - |u|];
    }
  }

  /** `re.sub(r'\s+', ' ', text.lower()).strip()`. */
  function Clean(t: CharTables, text: string): (r: string)
    ensures Trimmed(t, r) && |r| <= |Lower(t, text)|
  {
    Strip(t, Collapse(t, Lower(t, text)))
  }

  // ---------------------------------------------------------------------------
  // An independent reference: `' '.join(text.lower().split())`

  predicate IsWord(t: CharTables, w: string) {
    |w| > 0 && forall i :: 0 <= i < |w| ==> !t.isSpace(w[i])
  }

  predicate AllWords(t: CharTables, ws: seq<string>) {
    forall k :: 0 <= k < |ws| ==> IsWord(t, ws[k])
  }

  /** The maximal leading run of non-whitespace characters. */
  function TakeWord(t: CharTables, s: string): (w: string)
    ensures |w| <= |s| && w == s[..|w|]
    ensures forall i :: 0 <= i < |w| ==> !t.isSpace(w[i])
    ensures |w| < |s| ==> t.isSpace(s[|w|])
  {
    if s != [] && !t.isSpace(s[0]) then [s[0]] + TakeWord(t, s[1..]) else []
  }

  /** `str.split()` with no argument: the whitespace-separated words, empty ones discarded. */
  function SplitWords(t: CharTables, s: string): (ws: seq<string>)
    ensures AllWords(t, ws)
    decreases |s|
  {
    var u := SkipSpaces(t, s);
    if u == [] then []
    else
      var w := TakeWord(t, u);
      WordAtFront(t, u);
      var ws := SplitWords(t, u[|w|..]);
      AllWordsCons(t, w, ws);
      [w] + ws
  }

  lemma WordAtFront(t: CharTables, u: string)
    requires u != [] && !t.isSpace(u[0])
    ensures IsWord(t, TakeWord(t, u))
  {
  }

  lemma AllWordsCons(t: CharTables, w: string, ws: seq<string>)
    requires IsWord(t, w) && AllWords(t, ws)
    ensures AllWords(t, [w] + ws)
  {
    forall k | 0 <= k < |ws| + 1 ensures IsWord(t, ([w] + ws)[k]) {
      if k > 0 { assert ([w] + ws)[k] == ws[k - 1]; }
    }
  }

  /** `' '.join(ws)`: the first word, then a space before each later word. */
  function JoinWords(ws: seq<string>): (r: string)
    ensures ws != [] ==> ws[0] <= r
    ensures |ws| > 1 ==> |ws[0]| < |r| && r[|ws[0]|] == ' '
  {
    if ws == [] then []
    else if |ws| == 1 then ws[0]
    else ws[0] + [' '] + JoinWords(ws[1..])
  }

  // ---------------------------------------------------------------------------
  // Lemmas relating the two

  /** Joining words with single spaces gives a string of the cleaned shape. */
  lemma {:induction false} JoinWordsNormalized(t: CharTables, ws: seq<string>)
    requires AllWords(t, ws)
    ensures Normalized(t, JoinWords(ws))
    ensures JoinWords(ws) == [] <==> ws == []
  {
    if |ws| >= 2 {
      var rest := JoinWords(ws[1..]);
      JoinWordsNormalized(t, ws[1..]);
      var s := JoinWords(ws);
      var n := |ws[0]|;
      assert s == ws[0] + [' '] + rest;
      assert forall i :: 0 <= i < n ==> s[i] == ws[0][i];
      assert s[n] == ' ';
      assert forall i :: n < i < |s| ==> s[i] == rest[i - n - 1];
    }
  }

  lemma JoinWordsTrimmed(t: CharTables, ws: seq<string>)
    requires AllWords(t, ws)
    ensures Trimmed(t, JoinWords(ws))
  {
    JoinWordsNormalized(t, ws);
  }

  /** Splitting ignores leading whitespace. */
  lemma SplitSkipsSpaces(t: CharTables, x: string)
    ensures SplitWords(t, x) == SplitWords(t, SkipSpaces(t, x))
  {
    var u := SkipSpaces(t, x);
    assert SkipSpaces(t, u) == u;
  }

  lemma JoinCons(w: string, ws: seq<string>)
    requires ws != []
    ensures JoinWords([w] + ws) == w + [' '] + JoinWords(ws)
  {
    assert ([w] + ws)[1..] == ws;
  }

  /** Collapsing a word followed by whitespace or nothing copies the word. */
  lemma {:induction false} CollapseWordRest(t: CharTables, w: string, rest: string)
    requires IsWord(t, w) && (rest == [] || t.isSpace(rest[0]))
    ensures Collapse(t, w + rest) == w + Collapse(t, rest)
    decreases |w|
  {
    var x := w + rest;
    assert x[0] == w[0] && !t.isSpace(x[0]);
    assert x[1..] == w[1..] + rest;
    assert Collapse(t, x) == [w[0]] + Collapse(t, x[1..]);
    assert w == [w[0]] + w[1..];
    if |w| > 1 {
      assert Collapse(t, x[1..]) == w[1..] + Collapse(t, rest) by {
        CollapseWordRest(t, w[1..], rest);
      }
      ConcatAssoc3([w[0]], w[1..], Collapse(t, rest));
    } else {
      assert x[1..] == rest;
    }
  }

  /** Splitting a word followed by whitespace or nothing yields that word first. */
  lemma SplitWordRest(t: CharTables, w: string, rest: string)
    requires IsWord(t, w) && (rest == [] || t.isSpace(rest[0]))
    ensures SplitWords(t, w + rest) == [w] + SplitWords(t, rest)
  {
    var x := w + rest;
    assert x[0] == w[0];
    assert SkipSpaces(t, x) == x;
    TakeWholeWord(t, w, rest);
    assert x[|w|..] == rest;
  }

  /** On a string that starts with a word, collapsing is joining the words, plus one
      space when the string ends in whitespace. */
  lemma {:induction false} CollapseFromWord(t: CharTables, x: string)
    requires x != [] && !t.isSpace(x[0])
    ensures Collapse(t, x) == JoinWords(SplitWords(t, x)) + (if t.isSpace(x[|x| - 1]) then [' '] else [])
    decreases |x|, 1
  {
    var w := TakeWord(t, x);
    WordAtFront(t, x);
    var rest := x[|w|..];
    assert x == w + rest;
    CollapseWordRest(t, w, rest);
    SplitWordRest(t, w, rest);
    if rest != [] {
      assert x[|x| - 1] == rest[|rest| - 1];
      CollapseFromSpace(t, w, rest);
    }
  }

  lemma {:induction false} CollapseFromSpace(t: CharTables, w: string, rest: string)
    requires IsWord(t, w) && rest != [] && t.isSpace(rest[0])
    ensures w + Collapse(t, rest) == JoinWords([w] + SplitWords(t, rest)) + (if t.isSpace(rest[|rest| - 1]) then [' '] else [])
    decreases |rest|, 0
  {
    var u := SkipSpaces(t, rest);
    assert SplitWords(t, rest) == SplitWords(t, u) by {
      SplitSkipsSpaces(t, rest);
    }
    if u == [] {
      CollapseBlankRest(t, w, rest);
    } else {
      var ws := SplitWords(t, u);
      var tail: string := if t.isSpace(u[|u| - 1]) then [' '] else [];
      assert Collapse(t, u) == JoinWords(ws) + tail by {
        CollapseFromWord(t, u);
      }
      assert ws != [] by {
        SplitEmptyIff(t, u);
      }
      CollapseSpaceThenWords(t, w, rest, ws, tail);
    }
  }

  /** The step of `CollapseFromSpace` past the leading whitespace run. */
  lemma CollapseSpaceThenWords(t: CharTables, w: string, rest: string, ws: seq<string>, tail: string)
    requires rest != [] && t.isSpace(rest[0])
    requires SkipSpaces(t, rest) != [] && ws != []
    requires Collapse(t, SkipSpaces(t, rest)) == JoinWords(ws) + tail
    requires tail == if t.isSpace(rest[|rest| - 1]) then [' '] else []
    ensures w + Collapse(t, rest) == JoinWords([w] + ws) + tail
  {
    assert Collapse(t, rest) == [' '] + Collapse(t, SkipSpaces(t, rest));
    JoinConsPadded(w, ws, tail);
  }

  /** A word followed only by whitespace collapses to the word and one space. */
  lemma CollapseBlankRest(t: CharTables, w: string, rest: string)
    requires rest != [] && t.isSpace(rest[0]) && SkipSpaces(t, rest) == []
    ensures t.isSpace(rest[|rest| - 1])
    ensures SplitWords(t, rest) == []
    ensures w + Collapse(t, rest) == JoinWords([w] + SplitWords(t, rest)) + [' ']
  {
    assert Collapse(t, rest) == [' '];
    assert [w] + [] == [w];
  }

  /** Re-associating a word, a space, joined words and a padding. */
  lemma JoinConsPadded(w: string, ws: seq<string>, tail: string)
    requires ws != []
    ensures w + ([' '] + (JoinWords(ws) + tail)) == JoinWords([w] + ws) + tail
  {
    JoinCons(w, ws);
    ConcatAssoc(w, [' '], JoinWords(ws), tail);
  }

  lemma ConcatAssoc3(a: string, b: string, c: string)
    ensures a + (b + c) == a + b + c
  {
  }

  lemma ConcatAssoc(a: string, b: string, c: string, d: string)
    ensures a + (b + (c + d)) == a + b + c + d
  {
  }

  lemma {:induction false} SkipBlankPrefix(t: CharTables, a: string, y: string)
    requires IsBlank(t, a)
    ensures SkipSpaces(t, a + y) == SkipSpaces(t, y)
    decreases |a|
  {
    if a != [] {
      assert t.isSpace(a[0]) && (a + y)[0] == a[0];
      assert (a + y)[1..] == a[1..] + y;
      assert IsBlank(t, a[1..]) by {
        forall i | 0 <= i < |a[1..]| ensures t.isSpace(a[1..][i]) { assert a[1..][i] == a[i + 1]; }
      }
      SkipBlankPrefix(t, a[1..], y);
    } else {
      assert a + y == y;
    }
  }

  lemma {:induction false} SkipBlankSuffix(t: CharTables, y: string, b: string)
    requires IsBlank(t, b)
    ensures SkipTrailingSpaces(t, y + b) == SkipTrailingSpaces(t, y)
    decreases |b|
  {
    if b != [] {
      assert t.isSpace(b[|b| - 1]) && (y + b)[|y + b| - 1] == b[|b| - 1];
      assert (y + b)[..|y + b| - 1] == y + b[..|b| - 1];
      var b' := b[..|b| - 1];
      assert IsBlank(t, b') by {
        forall i | 0 <= i < |b'| ensures t.isSpace(b'[i]) { assert b'[i] == b[i]; }
      }
      SkipBlankSuffix(t, y, b[..|b| - 1]);
    } else {
      assert y + b == y;
    }
  }

  /** Stripping removes exactly the whitespace padding around a normalized string. */
  lemma StripPadded(t: CharTables, j: string, a: string, b: string)
    requires Trimmed(t, j) && IsBlank(t, a) && IsBlank(t, b)
    ensures Strip(t, a + j + b) == j
  {
    assert a + j + b == a + (j + b);
    SkipBlankPrefix(t, a, j + b);
    if j == [] {
      assert j + b == b;
      assert b[..|b|] == b;
    } else {
      assert SkipSpaces(t, j + b) == j + b;
      SkipBlankSuffix(t, j, b);
    }
  }

  /** The cleaning expression equals `' '.join(text.lower().split())`. */
  lemma CleanIsJoinOfSplit(t: CharTables, text: string)
    requires t.isSpace(' ')
    ensures Clean(t, text) == JoinWords(SplitWords(t, Lower(t, text)))
  {
    var x := Lower(t, text);
    if x != [] {
      if t.isSpace(x[0]) {
        StripCollapseFromSpace(t, x);
      } else {
        StripCollapseFromWord(t, x);
      }
    }
  }

  lemma StripCollapseFromWord(t: CharTables, x: string)
    requires t.isSpace(' ') && x != [] && !t.isSpace(x[0])
    ensures Strip(t, Collapse(t, x)) == JoinWords(SplitWords(t, x))
  {
    var j := JoinWords(SplitWords(t, x));
    var b: string := if t.isSpace(x[|x| - 1]) then [' '] else [];
    assert Collapse(t, x) == j + b by {
      CollapseFromWord(t, x);
    }
    assert Strip(t, j + b) == j by {
      JoinWordsTrimmed(t, SplitWords(t, x));
      StripPadded(t, j, [], b);
      assert [] + j + b == j + b;
    }
  }

  lemma StripCollapseFromSpace(t: CharTables, x: string)
    requires t.isSpace(' ') && x != [] && t.isSpace(x[0])
    ensures Strip(t, Collapse(t, x)) == JoinWords(SplitWords(t, x))
  {
    var u := SkipSpaces(t, x);
    SplitSkipsSpaces(t, x);
    assert Collapse(t, x) == [' '] + Collapse(t, u);
    StripSpaceThenCollapse(t, u);
  }

  /** The space a leading whitespace run collapses to is stripped again. */
  lemma StripSpaceThenCollapse(t: CharTables, u: string)
    requires t.isSpace(' ') && (u == [] || !t.isSpace(u[0]))
    ensures Strip(t, [' '] + Collapse(t, u)) == JoinWords(SplitWords(t, u))
  {
    if u == [] {
      StripPadded(t, [], [' '], []);
      assert [' '] + [] + [] == [' '] + Collapse(t, u);
    } else {
      var j := JoinWords(SplitWords(t, u));
      var b: string := if t.isSpace(u[|u| - 1]) then [' '] else [];
      CollapseFromWord(t, u);
      JoinWordsTrimmed(t, SplitWords(t, u));
      ConcatAssoc3([' '], j, b);
      StripPadded(t, j, [' '], b);
    }
  }

  /** Splitting undoes joining: `' '.join(ws).split() == ws` for whitespace-free, nonempty words. */
  lemma {:induction false} SplitJoinRoundTrip(t: CharTables, ws: seq<string>)
    requires t.isSpace(' ') && AllWords(t, ws)
    ensures SplitWords(t, JoinWords(ws)) == ws
  {
    if |ws| == 1 {
      SplitJoinSingle(t, ws);
    } else if |ws| > 1 {
      var w, tail := ws[0], ws[1..];
      assert ws == [w] + tail;
      AllWordsUncons(t, ws);
      SplitJoinRoundTrip(t, tail);
      SplitJoinCons(t, w, tail);
    }
  }

  lemma AllWordsUncons(t: CharTables, ws: seq<string>)
    requires AllWords(t, ws) && ws != []
    ensures IsWord(t, ws[0]) && AllWords(t, ws[1..])
  {
    var tail := ws[1..];
    forall k | 0 <= k < |tail| ensures IsWord(t, tail[k]) {
      assert tail[k] == ws[k + 1];
    }
  }

  lemma SplitJoinSingle(t: CharTables, ws: seq<string>)
    requires AllWords(t, ws) && |ws| == 1
    ensures SplitWords(t, JoinWords(ws)) == ws
  {
    var w := ws[0];
    assert IsWord(t, w);
    assert JoinWords(ws) == w;
    assert SplitWords(t, w) == [w] by {
      assert w + [] == w;
      SplitWordRest(t, w, []);
      assert SplitWords(t, []) == [];
    }
    assert ws == [w];
  }

  /** The inductive step of the round trip: a word in front of joined words splits off. */
  lemma SplitJoinCons(t: CharTables, w: string, tail: seq<string>)
    requires t.isSpace(' ') && IsWord(t, w) && AllWords(t, tail) && tail != []
    requires SplitWords(t, JoinWords(tail)) == tail
    ensures SplitWords(t, JoinWords([w] + tail)) == [w] + tail
  {
    var rest := JoinWords(tail);
    JoinConsGap(t, w, tail);
    SplitWordRest(t, w, [' '] + rest);
    SplitAfterGap(t, rest);
  }

  /** Joining a word in front of further words puts one space before a word. */
  lemma JoinConsGap(t: CharTables, w: string, tail: seq<string>)
    requires AllWords(t, tail) && tail != []
    ensures var rest := JoinWords(tail);
      && rest != [] && !t.isSpace(rest[0])
      && JoinWords([w] + tail) == w + ([' '] + rest)
  {
    var rest := JoinWords(tail);
    JoinWordsNormalized(t, tail);
    JoinCons(w, tail);
    ConcatAssoc3(w, [' '], rest);
  }

  /** One separating space in front of a word does not change the split. */
  lemma SplitAfterGap(t: CharTables, rest: string)
    requires t.isSpace(' ') && rest != [] && !t.isSpace(rest[0])
    ensures SplitWords(t, [' '] + rest) == SplitWords(t, rest)
  {
    var gap := [' '] + rest;
    assert gap[1..] == rest;
    assert SkipSpaces(t, gap) == SkipSpaces(t, rest) == rest;
    SplitSkipsSpaces(t, gap);
  }

  lemma {:induction false} TakeWholeWord(t: CharTables, w: string, rest: string)
    requires IsWord(t, w) && (rest == [] || t.isSpace(rest[0]))
    ensures TakeWord(t, w + rest) == w
    decreases |w|
  {
    if |w| > 1 {
      assert (w + rest)[1..] == w[1..] + rest;
      TakeWholeWord(t, w[1..], rest);
    } else {
      assert (w + rest)[1..] == rest;
    }
  }

  /** Whitespace-only strings are exactly those with no words. */
  lemma SplitEmptyIff(t: CharTables, x: string)
    ensures SplitWords(t, x) == [] <==> IsBlank(t, x)
  {
    var u := SkipSpaces(t, x);
    if u == [] {
      assert x[..|x|] == x;
    } else {
      assert x[|x| - |u|] == u[0];
    }
  }

  // ---------------------------------------------------------------------------
  // Case

  lemma {:induction false} LowerIsLowercase(t: CharTables, s: string)
    requires PythonLike(t)
    ensures IsLowercase(t, Lower(t, s))
  {
    if s != [] {
      LowerIsLowercase(t, s[1..]);
      var head := t.lower(s[0]);
      var x := Lower(t, s);
      assert x == head + Lower(t, s[1..]);
      forall i | 0 <= i < |x|
        ensures t.lower(x[i]) == [x[i]]
      {
        if i < |head| {
          assert x[i] in head;
        } else {
          assert x[i] == Lower(t, s[1..])[i - |head|];
        }
      }
    }
  }

  predicate AllLowercase(t: CharTables, ws: seq<string>) {
    forall k :: 0 <= k < |ws| ==> IsLowercase(t, ws[k])
  }

  lemma {:induction false} SplitKeepsLowercase(t: CharTables, x: string)
    requires IsLowercase(t, x)
    ensures AllLowercase(t, SplitWords(t, x))
    decreases |x|
  {
    var u := SkipSpaces(t, x);
    if u != [] {
      var w := TakeWord(t, u);
      var rest := u[|w|..];
      assert u == x[|x| - |u|..|x|];
      LowercaseSlice(t, x, |x| - |u|, |x|);
      assert w == u[0..|w|] && rest == u[|w|..|u|];
      LowercaseSlice(t, u, 0, |w|);
      LowercaseSlice(t, u, |w|, |u|);
      SplitKeepsLowercase(t, rest);
      assert SplitWords(t, x) == [w] + SplitWords(t, rest);
      LowercaseCons(t, w, SplitWords(t, rest));
    }
  }

  lemma LowercaseSlice(t: CharTables, x: string, lo: nat, hi: nat)
    requires IsLowercase(t, x) && lo <= hi <= |x|
    ensures IsLowercase(t, x[lo..hi])
  {
    forall i | 0 <= i < hi - lo ensures t.lower(x[lo..hi][i]) == [x[lo..hi][i]] {
      assert x[lo..hi][i] == x[lo + i];
    }
  }

  lemma LowercaseCons(t: CharTables, w: string, ws: seq<string>)
    requires IsLowercase(t, w) && AllLowercase(t, ws)
    ensures AllLowercase(t, [w] + ws)
  {
    forall k | 0 <= k < |ws| + 1 ensures IsLowercase(t, ([w] + ws)[k]) {
      if k > 0 { assert ([w] + ws)[k] == ws[k - 1]; }
    }
  }

  lemma {:induction false} JoinKeepsLowercase(t: CharTables, ws: seq<string>)
    requires t.lower(' ') == [' ']
    requires AllLowercase(t, ws)
    ensures IsLowercase(t, JoinWords(ws))
  {
    if |ws| >= 2 {
      JoinKeepsLowercase(t, ws[1..]);
      var s := JoinWords(ws);
      var rest := JoinWords(ws[1..]);
      assert s == ws[0] + [' '] + rest;
      forall i | 0 <= i < |s|
        ensures t.lower(s[i]) == [s[i]]
      {
        if i < |ws[0]| {
          assert s[i] == ws[0][i];
        } else if i > |ws[0]| {
          assert s[i] == rest[i - |ws[0]| - 1];
        }
      }
    }
  }

  lemma {:induction false} LowerBlankIff(t: CharTables, s: string)
    requires PythonLike(t)
    ensures IsBlank(t, Lower(t, s)) <==> IsBlank(t, s)
  {
    if s != [] {
      assert Lower(t, s) == t.lower(s[0]) + Lower(t, s[1..]);
      BlankConcat(t, t.lower(s[0]), Lower(t, s[1..]));
      LowerCharBlank(t, s[0]);
      assert s == [s[0]] + s[1..];
      BlankConcat(t, [s[0]], s[1..]);
      LowerBlankIff(t, s[1..]);
    }
  }

  /** A concatenation is blank exactly when both parts are. */
  lemma BlankConcat(t: CharTables, a: string, b: string)
    ensures IsBlank(t, a + b) <==> IsBlank(t, a) && IsBlank(t, b)
  {
    var ab := a + b;
    if IsBlank(t, ab) {
      forall i | 0 <= i < |a| ensures t.isSpace(a[i]) { assert a[i] == ab[i]; }
      forall i | 0 <= i < |b| ensures t.isSpace(b[i]) { assert b[i] == ab[|a| + i]; }
    }
  }

  /** A character lowercases to whitespace only when it is whitespace itself. */
  lemma LowerCharBlank(t: CharTables, c: char)
    requires PythonLike(t)
    ensures IsBlank(t, t.lower(c)) <==> t.isSpace(c)
  {
    var l := t.lower(c);
    if !t.isSpace(c) {
      assert l[0] in l;
    }
  }

  // ---------------------------------------------------------------------------
  // What the cleaning expression guarantees

  /** No leading or trailing whitespace, only single plain spaces between words. */
  lemma CleanIsNormalized(t: CharTables, text: string)
    requires t.isSpace(' ')
    ensures Normalized(t, Clean(t, text))
  {
    CleanIsJoinOfSplit(t, text);
    JoinWordsNormalized(t, SplitWords(t, Lower(t, text)));
  }

  /** Cleaning keeps exactly the words of the lowercased text, in order. */
  lemma CleanKeepsWords(t: CharTables, text: string)
    requires t.isSpace(' ')
    ensures SplitWords(t, Clean(t, text)) == SplitWords(t, Lower(t, text))
  {
    CleanIsJoinOfSplit(t, text);
    SplitJoinRoundTrip(t, SplitWords(t, Lower(t, text)));
  }

  /** Every character of the cleaned text is fixed by `lower()`. */
  lemma CleanIsLowercase(t: CharTables, text: string)
    requires PythonLike(t)
    ensures IsLowercase(t, Clean(t, text))
  {
    var x := Lower(t, text);
    CleanIsJoinOfSplit(t, text);
    LowerIsLowercase(t, text);
    SplitKeepsLowercase(t, x);
    JoinKeepsLowercase(t, SplitWords(t, x));
  }

  /** Cleaning twice is cleaning once. */
  lemma CleanIdempotent(t: CharTables, text: string)
    requires PythonLike(t)
    ensures Clean(t, Clean(t, text)) == Clean(t, text)
  {
    var r := Clean(t, text);
    CleanIsLowercase(t, text);
    CleanIsJoinOfSplit(t, r);
    CleanKeepsWords(t, text);
    CleanIsJoinOfSplit(t, text);
  }

  /** The cleaned text is empty exactly when the input is empty or all whitespace. */
  lemma CleanEmptyIff(t: CharTables, text: string)
    requires PythonLike(t)
    ensures Clean(t, text) == [] <==> IsBlank(t, text)
  {
    var x := Lower(t, text);
    CleanIsJoinOfSplit(t, text);
    JoinWordsNormalized(t, SplitWords(t, x));
    SplitEmptyIff(t, x);
    LowerBlankIff(t, text);
  }

  // ---------------------------------------------------------------------------
  // A concrete instance

  /** Python's tables on the ASCII range (whitespace is space, tab through carriage
      return, and the four separators U+001C..U+001F; `A`..`Z` lowercase to `a`..`z`);
      every other code point is treated as caseless non-whitespace. */
  const AsciiTables: CharTables := CharTables(
    c => c == ' ' || '\t' <= c <= '\r' || '\U{1C}' <= c <= '\U{1F}',
    c => if 'A' <= c <= 'Z' then [(c as int + 32) as char] else [c])

  /** The assumptions of `PythonLike` can be met. */
  lemma AsciiTablesArePythonLike()
    ensures PythonLike(AsciiTables)
  {
    var t := AsciiTables;
    forall c, d | d in t.lower(c) ensures t.lower(d) == [d] && (t.isSpace(d) ==> t.isSpace(c)) {
      if 'A' <= c <= 'Z' {
        assert d == (c as int + 32) as char;
      } else {
        assert d == c;
      }
    }
  }
}
