/** The Python string built-ins the portfolio code relies on: str.isspace,
    str.strip, str.split (with and without a separator), str.join, str.upper,
    str.title, str.replace and the ordering of str values. */
module Text {

  /** The characters Python's str.isspace() accepts. */
  predicate IsSpace(c: char) {
    || c == ' '
    || ('\t' <= c <= '\r')
    || ('\U{1C}' <= c <= '\U{1F}')
    || c == '\U{85}' || c == '\U{A0}' || c == '\U{1680}'
    || ('\U{2000}' <= c <= '\U{200A}')
    || c == '\U{2028}' || c == '\U{2029}' || c == '\U{202F}' || c == '\U{205F}' || c == '\U{3000}'
  }

  /** Every character is whitespace (the empty string included): Python's
      `not s.strip()`. */
  predicate IsBlank(s: string) {
    forall k :: 0 <= k < |s| ==> IsSpace(s[k])
  }

  /** No whitespace at either end: the shape of every str.strip() result. */
  predicate IsStripped(s: string) {
    s == "" || (!IsSpace(s[0]) && !IsSpace(s[|s| - 1]))
  }

  /** Number of whitespace characters that open s. */
  function LeadingSpace(s: string): (n: nat)
    ensures n <= |s|
    ensures IsBlank(s[..n])
    ensures n < |s| ==> !IsSpace(s[n])
  {
    if s == "" || !IsSpace(s[0]) then 0
    else
      var m := LeadingSpace(s[1..]);
      assert s[..1 + m] == [s[0]] + s[1..][..m];
      1 + m
  }

  /** Number of whitespace characters that close s. */
  function TrailingSpace(s: string): (n: nat)
    ensures n <= |s|
    ensures IsBlank(s[|s| - n..])
    ensures n < |s| ==> !IsSpace(s[|s| - n - 1])
  {
    if s == "" || !IsSpace(s[|s| - 1]) then 0
    else
      var m := TrailingSpace(s[..|s| - 1]);
      assert s[|s| - (1 + m)..] == s[..|s| - 1][|s| - 1 - m..] + [s[|s| - 1]];
      1 + m
  }

  /** Python's str.strip() with no argument: s with the whitespace at both
      ends removed. */
  function Strip(s: string): (r: string)
    ensures IsStripped(r)
    ensures r == "" <==> IsBlank(s)
    ensures r != "" ==> s == s[..LeadingSpace(s)] + r + s[|s| - TrailingSpace(s)..]
  {
    var lead, trail := LeadingSpace(s), TrailingSpace(s);
    if lead == |s| then
      assert s[..lead] == s;
      ""
    else
      assert forall k :: |s| - trail <= k < |s| ==> IsSpace(s[k]) by {
        forall k | |s| - trail <= k < |s| ensures IsSpace(s[k]) {
          assert s[|s| - trail..][k - (|s| - trail)] == s[k];
        }
      }
      assert !IsBlank(s) by { assert !IsSpace(s[lead]); }
      assert s == s[..lead] + s[lead..|s| - trail] + s[|s| - trail..];
      s[lead..|s| - trail]
  }

  /** A string that is already stripped is left alone by Strip. */
  lemma StripOfStripped(s: string)
    requires IsStripped(s)
    ensures Strip(s) == s
  {
    if s != "" {
      assert LeadingSpace(s) == 0;
      assert TrailingSpace(s) == 0;
    }
  }

  /** Stripping twice is stripping once. */
  lemma StripIdempotent(s: string)
    ensures Strip(Strip(s)) == Strip(s)
  {
    StripOfStripped(Strip(s));
  }

  /** Stripping removes characters and adds none. */
  lemma StripKeepsOut(s: string, c: char)
    requires c !in s
    ensures c !in Strip(s)
  {
    var r := Strip(s);
    if r != "" {
      assert s == s[..LeadingSpace(s)] + r + s[|s| - TrailingSpace(s)..];
      forall k | 0 <= k < |r| ensures r[k] != c {
        assert r[k] == s[LeadingSpace(s) + k];
      }
    }
  }

  /** A non-empty run of non-whitespace characters. */
  predicate IsWord(w: string) {
    w != "" && forall k :: 0 <= k < |w| ==> !IsSpace(w[k])
  }

  /** Length of the run of non-whitespace characters that opens s. */
  function WordLength(s: string): (n: nat)
    ensures n <= |s|
    ensures forall k :: 0 <= k < n ==> !IsSpace(s[k])
    ensures n < |s| ==> IsSpace(s[n])
  {
    if s == "" || IsSpace(s[0]) then 0 else 1 + WordLength(s[1..])
  }

  /** Python's str.split() with no argument: the maximal runs of
      non-whitespace characters of s, in order. */
  function Words(s: string): (ws: seq<string>)
    ensures forall k :: 0 <= k < |ws| ==> IsWord(ws[k])
    decreases |s|
  {
    if s == "" then []
    else if IsSpace(s[0]) then Words(s[1..])
    else
      var n := WordLength(s);
      [s[..n]] + Words(s[n..])
  }

  /** Python's sep.join(parts). */
  function Join(sep: string, parts: seq<string>): (r: string)
  {
    if |parts| == 0 then ""
    else if |parts| == 1 then parts[0]
    else parts[0] + sep + Join(sep, parts[1..])
  }

  /** A join opens with its first part and keeps every part's characters,
      so it is empty only when every part is. */
  lemma {:induction false} JoinStartsWithFirst(sep: string, parts: seq<string>)
    requires parts != []
    ensures |Join(sep, parts)| >= |parts[0]|
    ensures Join(sep, parts)[..|parts[0]|] == parts[0]
    ensures Join(sep, parts) == "" ==> forall k :: 0 <= k < |parts| ==> parts[k] == ""
  {
    if |parts| > 1 {
      JoinStartsWithFirst(sep, parts[1..]);
      var j := Join(sep, parts);
      assert j == parts[0] + sep + Join(sep, parts[1..]);
      assert j[..|parts[0]|] == parts[0];
      if j == "" {
        forall k | 0 <= k < |parts| ensures parts[k] == "" {
          if k > 0 { assert parts[k] == parts[1..][k - 1]; }
        }
      }
    }
  }

  /** Whitespace occurs only as single spaces strictly between two
      non-whitespace characters. */
  predicate SingleSpaced(s: string) {
    forall k :: 0 <= k < |s| && IsSpace(s[k]) ==>
      s[k] == ' ' && 0 < k < |s| - 1 && !IsSpace(s[k - 1]) && !IsSpace(s[k + 1])
  }

  /** `' '.join(s.split())`: the words of s, in order, separated by single
      spaces, with nothing around them. */
  function CollapseWhitespace(s: string): (r: string)
    ensures Words(r) == Words(s)
    ensures IsStripped(r) && SingleSpaced(r)
    ensures r == "" <==> IsBlank(s)
  {
    var ws := Words(s);
    WordsOfSpaceJoin(ws);
    SpaceJoinShape(ws);
    WordsEmptyIffBlank(s);
    Join(" ", ws)
  }

  /** A word is its own only word. */
  lemma WordsOfWord(w: string)
    requires IsWord(w)
    ensures Words(w) == [w]
  {
    assert WordLength(w) == |w|;
    assert w[..|w|] == w;
    assert Words(w[|w|..]) == [];
  }

  /** A word followed by whitespace (or by nothing) is one run. */
  lemma {:induction false} WordLengthOfWordThen(w: string, t: string)
    requires IsWord(w)
    requires t != "" ==> IsSpace(t[0])
    ensures WordLength(w + t) == |w|
  {
    if |w| > 1 {
      assert (w + t)[1..] == w[1..] + t;
      WordLengthOfWordThen(w[1..], t);
    } else {
      assert (w + t)[1..] == t;
    }
  }

  /** Splitting words joined by single spaces gives the words back. */
  lemma {:induction false} WordsOfSpaceJoin(ws: seq<string>)
    requires forall k :: 0 <= k < |ws| ==> IsWord(ws[k])
    ensures Words(Join(" ", ws)) == ws
  {
    if |ws| == 1 {
      WordsOfWord(ws[0]);
    } else if |ws| > 1 {
      var w, tail := ws[0], Join(" ", ws[1..]);
      var j := w + " " + tail;
      assert j == Join(" ", ws);
      assert j == w + (" " + tail);
      WordLengthOfWordThen(w, " " + tail);
      assert j[..|w|] == w;
      assert j[|w|..] == " " + tail;
      assert (" " + tail)[1..] == tail;
      WordsOfSpaceJoin(ws[1..]);
    }
  }

  /** Words joined by single spaces are stripped and single-spaced, and the
      result is empty only when there are no words. */
  lemma {:induction false} SpaceJoinShape(ws: seq<string>)
    requires forall k :: 0 <= k < |ws| ==> IsWord(ws[k])
    ensures var j := Join(" ", ws);
      && (j == "" <==> ws == [])
      && (ws != [] ==>
            var first, last := ws[0], ws[|ws| - 1];
            IsWord(first) && IsWord(last) && j[0] == first[0] && j[|j| - 1] == last[|last| - 1])
      && IsStripped(j) && SingleSpaced(j)
  {
    if |ws| > 1 {
      var w, tail := ws[0], Join(" ", ws[1..]);
      SpaceJoinShape(ws[1..]);
      var j := w + " " + tail;
      assert j == Join(" ", ws);
      assert forall i :: 0 <= i < |w| ==> j[i] == w[i];
      forall k | 0 <= k < |j| && IsSpace(j[k])
        ensures j[k] == ' ' && 0 < k < |j| - 1 && !IsSpace(j[k - 1]) && !IsSpace(j[k + 1])
      {
        if k < |w| {
          assert false;
        } else if k == |w| {
          assert j[k + 1] == tail[0];
        } else {
          var i := k - |w| - 1;
          assert j[k] == tail[i];
          if i > 0 {
            assert j[k - 1] == tail[i - 1];
          }
          assert j[k + 1] == tail[i + 1];
        }
      }
    } else if |ws| == 1 {
      var w := ws[0];
      assert Join(" ", ws) == w;
    }
  }

  /** A string has no words exactly when it is blank. */
  lemma {:induction false} WordsEmptyIffBlank(s: string)
    ensures Words(s) == [] <==> IsBlank(s)
    decreases |s|
  {
    if s != "" && IsSpace(s[0]) {
      WordsEmptyIffBlank(s[1..]);
      if IsBlank(s[1..]) {
        forall k | 0 <= k < |s| ensures IsSpace(s[k]) {
          if k > 0 { assert s[k] == s[1..][k - 1]; }
        }
      }
    }
  }

  /** Collapsing whitespace twice is collapsing it once. */
  lemma CollapseWhitespaceIdempotent(s: string)
    ensures CollapseWhitespace(CollapseWhitespace(s)) == CollapseWhitespace(s)
  {
  }

  /** Python's s.split(c) for a one-character separator c: the pieces of s
      between occurrences of c, empty pieces included. */
  function SplitOn(s: string, c: char): (parts: seq<string>)
    ensures |parts| >= 1
    ensures forall k :: 0 <= k < |parts| ==> c !in parts[k]
  {
    if s == "" then [""]
    else
      var rest := SplitOn(s[1..], c);
      if s[0] == c then [""] + rest else [[s[0]] + rest[0]] + rest[1..]
  }

  /** Joining the pieces with the separator gives the string back. */
  lemma {:induction false} JoinSplitOn(s: string, c: char)
    ensures Join([c], SplitOn(s, c)) == s
  {
    if s != "" {
      var rest := SplitOn(s[1..], c);
      JoinSplitOn(s[1..], c);
      if s[0] == c {
        assert [""] + rest == [""] + rest[0..];
        assert ([""] + rest)[1..] == rest;
      } else {
        var parts := [[s[0]] + rest[0]] + rest[1..];
        if |rest| > 1 {
          assert parts[1..] == rest[1..];
          assert Join([c], rest) == rest[0] + [c] + Join([c], rest[1..]);
        }
      }
    }
  }

  /** A piece free of the separator, followed by the separator, splits off
      as one piece. */
  lemma {:induction false} SplitOnAfterPiece(p: string, c: char, t: string)
    requires c !in p
    ensures SplitOn(p + [c] + t, c) == [p] + SplitOn(t, c)
  {
    if p == "" {
      assert p + [c] + t == [c] + t;
      assert ([c] + t)[1..] == t;
    } else {
      assert (p + [c] + t)[1..] == p[1..] + [c] + t;
      SplitOnAfterPiece(p[1..], c, t);
      assert [p[0]] + p[1..] == p;
    }
  }

  /** A string without the separator is a single piece. */
  lemma {:induction false} SplitOnWithout(p: string, c: char)
    requires c !in p
    ensures SplitOn(p, c) == [p]
  {
    if p != "" {
      SplitOnWithout(p[1..], c);
      assert [p[0]] + p[1..] == p;
    }
  }

  /** Splitting pieces joined by the separator gives the pieces back, when no
      piece holds the separator. */
  lemma {:induction false} SplitOnJoin(parts: seq<string>, c: char)
    requires |parts| >= 1
    requires forall k :: 0 <= k < |parts| ==> c !in parts[k]
    ensures SplitOn(Join([c], parts), c) == parts
  {
    if |parts| == 1 {
      SplitOnWithout(parts[0], c);
    } else {
      SplitOnJoin(parts[1..], c);
      SplitOnAfterPiece(parts[0], c, Join([c], parts[1..]));
    }
  }

  /** Each piece stripped, as `[p.strip() for p in pieces]`. */
  function StripEach(pieces: seq<string>): (r: seq<string>)
    ensures |r| == |pieces|
    ensures forall k :: 0 <= k < |r| ==> r[k] == Strip(pieces[k])
  {
    if pieces == [] then [] else [Strip(pieces[0])] + StripEach(pieces[1..])
  }

  lemma {:induction false} StripEachOfStripped(tags: seq<string>)
    requires forall k :: 0 <= k < |tags| ==> IsStripped(tags[k])
    ensures StripEach(tags) == tags
  {
    if tags != [] {
      StripOfStripped(tags[0]);
      StripEachOfStripped(tags[1..]);
    }
  }

  /** A space in front of a stripped string is all Strip removes. */
  lemma StripAfterSpace(t: string)
    requires IsStripped(t)
    ensures Strip(" " + t) == t
  {
    var s := " " + t;
    if t != "" {
      assert s[1..] == t;
      assert LeadingSpace(s[1..]) == 0;
      assert LeadingSpace(s) == 1;
      assert TrailingSpace(s) == 0 by { assert s[|s| - 1] == t[|t| - 1]; }
      assert s[1..|s|] == t;
    } else {
      assert IsBlank(s);
    }
  }

  /** Text put in front of a join becomes part of the first piece. */
  lemma JoinPrefixFirst(x: string, sep: string, parts: seq<string>)
    requires parts != []
    ensures x + Join(sep, parts) == Join(sep, [x + parts[0]] + parts[1..])
  {
    var q := [x + parts[0]] + parts[1..];
    if |parts| > 1 {
      assert q[1..] == parts[1..];
    }
  }

  /** Each part with one space in front. */
  function Spaced(parts: seq<string>): (r: seq<string>)
    ensures |r| == |parts|
    ensures forall k :: 0 <= k < |r| ==> r[k] == " " + parts[k]
  {
    seq(|parts|, k requires 0 <= k < |parts| => " " + parts[k])
  }

  /** `", ".join(parts)` is the join with ',' of the parts, every one but the
      first carrying the space. */
  lemma {:induction false} JoinCommaSpace(parts: seq<string>)
    requires parts != []
    ensures Join(", ", parts) == Join([','], [parts[0]] + Spaced(parts[1..]))
  {
    if |parts| > 1 {
      var tail := parts[1..];
      JoinCommaSpace(tail);
      assert tail[1..] == parts[2..];
      var j := Join([','], [tail[0]] + Spaced(tail[1..]));
      JoinPrefixFirst(" ", [','], [tail[0]] + Spaced(tail[1..]));
      assert ([tail[0]] + Spaced(tail[1..]))[1..] == Spaced(tail[1..]);
      assert [" " + tail[0]] + Spaced(tail[1..]) == Spaced(tail);
      var q := [parts[0]] + Spaced(tail);
      assert q[1..] == Spaced(tail);
      assert Join([','], q) == parts[0] + [','] + Join([','], Spaced(tail));
      assert Join(", ", parts) == parts[0] + ", " + Join(", ", tail);
    }
  }

  lemma SpacedPiecesStrip(parts: seq<string>)
    requires parts != []
    requires forall k :: 0 <= k < |parts| ==> IsStripped(parts[k])
    ensures StripEach([parts[0]] + Spaced(parts[1..])) == parts
  {
    var pieces := [parts[0]] + Spaced(parts[1..]);
    var r := StripEach(pieces);
    StripOfStripped(parts[0]);
    forall k | 1 <= k < |parts| ensures r[k] == parts[k] {
      assert pieces[k] == " " + parts[k];
      StripAfterSpace(parts[k]);
    }
  }

  lemma SpacedPiecesWithout(c: char, first: string, rest: seq<string>)
    requires c != ' ' && c !in first
    requires forall k :: 0 <= k < |rest| ==> c !in rest[k]
    ensures forall k :: 0 <= k < 1 + |rest| ==> c !in ([first] + Spaced(rest))[k]
  {
    var pieces := [first] + Spaced(rest);
    forall k | 0 <= k < |pieces| ensures c !in pieces[k] {
      if k > 0 {
        assert pieces[k] == " " + rest[k - 1];
      }
    }
  }

  /** Splitting a ", " join on ',' gives the parts, every one but the first
      with its space still in front. */
  lemma SplitCommaSpace(parts: seq<string>)
    requires parts != []
    requires forall k :: 0 <= k < |parts| ==> ',' !in parts[k]
    ensures SplitOn(Join(", ", parts), ',') == [parts[0]] + Spaced(parts[1..])
  {
    JoinCommaSpace(parts);
    SpacedPiecesWithout(',', parts[0], parts[1..]);
    SplitOnJoin([parts[0]] + Spaced(parts[1..]), ',');
  }

  /** Parts joined with ", " are read back by splitting on ',' and stripping
      each piece, when they are stripped and hold no ','. */
  lemma CommaSpaceReadsBack(parts: seq<string>)
    requires parts != []
    requires forall k :: 0 <= k < |parts| ==> IsStripped(parts[k]) && ',' !in parts[k]
    ensures StripEach(SplitOn(Join(", ", parts), ',')) == parts
  {
    SplitCommaSpace(parts);
    SpacedPiecesStrip(parts);
  }

  /** Python's str.upper(), for the ASCII letters. */
  function UpperChar(c: char): (u: char)
  {
    if 'a' <= c <= 'z' then (c as int - 32) as char else c
  }

  /** Python's str.lower(), for the ASCII letters. */
  function LowerChar(c: char): (l: char)
  {
    if 'A' <= c <= 'Z' then (c as int + 32) as char else c
  }

  /** A letter that has an upper- and a lower-case form. */
  predicate IsCased(c: char) {
    'a' <= c <= 'z' || 'A' <= c <= 'Z'
  }

  /** Python's str.upper(): same length, no lower-case letter left, every
      other character unchanged. */
  function Upper(s: string): (r: string)
    ensures |r| == |s|
    ensures forall k :: 0 <= k < |r| ==> !('a' <= r[k] <= 'z')
    ensures forall k :: 0 <= k < |s| && !('a' <= s[k] <= 'z') ==> r[k] == s[k]
    ensures forall k :: 0 <= k < |s| ==> LowerChar(r[k]) == LowerChar(s[k])
  {
    seq(|s|, k requires 0 <= k < |s| => UpperChar(s[k]))
  }

  /** str.title() from a position whose previous character was cased
      (afterCased) or not. */
  function TitleFrom(s: string, afterCased: bool): (r: string)
    ensures |r| == |s|
  {
    if s == "" then ""
    else [if afterCased then LowerChar(s[0]) else UpperChar(s[0])] + TitleFrom(s[1..], IsCased(s[0]))
  }

  /** Python's str.title(): a cased character is upper-cased when it opens
      the string or follows an uncased character, lower-cased otherwise. */
  function Title(s: string): (r: string)
    ensures |r| == |s|
    ensures s != "" ==> r[0] == UpperChar(s[0])
  {
    TitleFrom(s, false)
  }

  /** After a cased character, a run of lower-case letters stays as it is. */
  lemma {:induction false} TitleFromKeepsLowerRun(s: string)
    requires forall k :: 0 <= k < |s| ==> 'a' <= s[k] <= 'z'
    ensures TitleFrom(s, true) == s
  {
    if s != "" {
      TitleFromKeepsLowerRun(s[1..]);
      assert s == [s[0]] + s[1..];
    }
  }

  /** A lower-case word title-cases to its capitalised form. */
  lemma TitleOfLowerWord(s: string)
    requires s != ""
    requires forall k :: 0 <= k < |s| ==> 'a' <= s[k] <= 'z'
    ensures Title(s) == [UpperChar(s[0])] + s[1..]
  {
    TitleFromKeepsLowerRun(s[1..]);
  }

  /** Title-casing twice is title-casing once. */
  lemma {:induction false} TitleFromIdempotent(s: string, afterCased: bool)
    ensures TitleFrom(TitleFrom(s, afterCased), afterCased) == TitleFrom(s, afterCased)
  {
    if s != "" {
      var t := TitleFrom(s, afterCased);
      TitleFromIdempotent(s[1..], IsCased(s[0]));
      assert t[1..] == TitleFrom(s[1..], IsCased(s[0]));
      assert IsCased(t[0]) == IsCased(s[0]);
    }
  }

  /** Title-casing ignores the case the input was written in. */
  lemma {:induction false} TitleFromIgnoresCase(s: string, t: string, afterCased: bool)
    requires |s| == |t|
    requires forall k :: 0 <= k < |s| ==> LowerChar(s[k]) == LowerChar(t[k])
    ensures TitleFrom(s, afterCased) == TitleFrom(t, afterCased)
  {
    if s != "" {
      assert LowerChar(s[0]) == LowerChar(t[0]);
      assert UpperChar(s[0]) == UpperChar(t[0]) && IsCased(s[0]) == IsCased(t[0]);
      TitleFromIgnoresCase(s[1..], t[1..], IsCased(s[0]));
    }
  }

  /** Python's s.replace(a, b) for one-character arguments. */
  function ReplaceChar(s: string, a: char, b: char): (r: string)
    ensures |r| == |s|
    ensures a != b ==> a !in r
    ensures forall k :: 0 <= k < |s| && s[k] != a ==> r[k] == s[k]
    ensures forall k :: 0 <= k < |s| && s[k] == a ==> r[k] == b
  {
    seq(|s|, k requires 0 <= k < |s| => if s[k] == a then b else s[k])
  }

  /** Python's `a < b` on str: lexicographic order of code points. */
  predicate StrLess(a: string, b: string) {
    if a == "" then b != ""
    else if b == "" then false
    else a[0] < b[0] || (a[0] == b[0] && StrLess(a[1..], b[1..]))
  }

  lemma {:induction false} StrLessIrreflexive(a: string)
    ensures !StrLess(a, a)
  {
    if a != "" {
      StrLessIrreflexive(a[1..]);
    }
  }

  lemma {:induction false} StrLessTransitive(a: string, b: string, c: string)
    requires StrLess(a, b) && StrLess(b, c)
    ensures StrLess(a, c)
  {
    if a != "" && a[0] == b[0] && b[0] == c[0] {
      StrLessTransitive(a[1..], b[1..], c[1..]);
    }
  }

  lemma {:induction false} StrLessTotal(a: string, b: string)
    requires a != b
    ensures StrLess(a, b) || StrLess(b, a)
  {
    if a != "" && b != "" && a[0] == b[0] {
      assert a == [a[0]] + a[1..] && b == [b[0]] + b[1..];
      StrLessTotal(a[1..], b[1..]);
    }
  }
}
