/**
  The Python string built-ins the modelled code relies on: the substring test
  `sub in s`, `s.split(sep)` with an explicit separator, and `s.split()` with
  no argument, which splits on runs of whitespace.
 */
module Text {
  import opened Wrappers

  /** `sub` occurs in `s` starting at index `i`. */
  ghost predicate OccursAt(s: string, sub: string, i: int) {
    0 <= i && i + |sub| <= |s| && s[i..i + |sub|] == sub
  }

  /** An occurrence at index j >= k of `s` is an occurrence at j - k of the suffix `s[k..]`, and back. */
  lemma OccursInSuffix(s: string, sub: string, k: nat)
    requires k <= |s|
    ensures forall j :: k <= j ==> (OccursAt(s, sub, j) <==> OccursAt(s[k..], sub, j - k))
  {
    forall j | k <= j
      ensures OccursAt(s, sub, j) <==> OccursAt(s[k..], sub, j - k)
    {
      if j + |sub| <= |s| {
        var here, there := s[j..j + |sub|], s[k..][j - k..j - k + |sub|];
        assert forall i :: 0 <= i < |here| ==> here[i] == there[i];
        assert here == there;
      }
    }
  }

  /** The first index at which `sub` occurs in `s`: Python's `s.find(sub)`, with None for -1. */
  function Find(s: string, sub: string): (r: Option<nat>)
    ensures r.Some? ==> OccursAt(s, sub, r.value)
    ensures r.Some? ==> forall j :: 0 <= j < r.value ==> !OccursAt(s, sub, j)
    ensures r.None? ==> forall j :: !OccursAt(s, sub, j)
    decreases |s|
  {
    if |s| < |sub| then None
    else if s[..|sub|] == sub then Some(0)
    else
      OccursInSuffix(s, sub, 1);
      match Find(s[1..], sub)
      case None => None
      case Some(j) => Some(j + 1)
  }

  /** For a one-character `sub`, an occurrence is an index holding that character. */
  lemma OccursAtChar(s: string, c: char)
    ensures forall j :: OccursAt(s, [c], j) <==> 0 <= j < |s| && s[j] == c
  {
    forall j | 0 <= j < |s| ensures OccursAt(s, [c], j) <==> s[j] == c {
      assert s[j..j + 1] == [s[j]];
    }
  }

  /** The first index holding `c` is what Find reports. */
  lemma FindCharAt(s: string, c: char, i: nat)
    requires i < |s| && s[i] == c
    requires forall j :: 0 <= j < i ==> s[j] != c
    ensures Find(s, [c]) == Some(i)
  {
    OccursAtChar(s, c);
  }

  /** Find reports None when no index holds `c`. */
  lemma FindCharAbsent(s: string, c: char)
    requires forall j :: 0 <= j < |s| ==> s[j] != c
    ensures Find(s, [c]).None?
  {
    OccursAtChar(s, c);
  }

  /** Python's `sub in s`. */
  function Contains(s: string, sub: string): (r: bool)
    ensures r <==> exists i :: OccursAt(s, sub, i)
  {
    Find(s, sub).Some?
  }

  /**
    Python's `s.split(sep)` for a non-empty separator: the pieces between the
    occurrences of `sep`, found left to right without overlap.
   */
  function SplitOn(s: string, sep: string): (r: seq<string>)
    requires |sep| > 0
    ensures |r| >= 1
    ensures forall k :: 0 <= k < |r| ==> !Contains(r[k], sep)
    decreases |s|
  {
    match Find(s, sep)
    case None => [s]
    case Some(i) =>
      assert forall j :: OccursAt(s[..i], sep, j) ==> OccursAt(s, sep, j) && j < i by {
        forall j | OccursAt(s[..i], sep, j) ensures OccursAt(s, sep, j) && j < i {
          assert s[..i][j..j + |sep|] == s[j..j + |sep|];
        }
      }
      [s[..i]] + SplitOn(s[i + |sep|..], sep)
  }

  /** Python's `sep.join(pieces)`, for at least one piece. */
  function Join(pieces: seq<string>, sep: string): string
    requires |pieces| >= 1
  {
    if |pieces| == 1 then pieces[0] else pieces[0] + sep + Join(pieces[1..], sep)
  }

  /** Joining three pieces puts the separator between the first and second and between the second and third. */
  lemma JoinThree(a: string, b: string, c: string, sep: string)
    ensures Join([a, b, c], sep) == a + sep + b + sep + c
  {
    assert [b, c][1..] == [c];
    assert Join([b, c], sep) == b + sep + c;
    assert [a, b, c][1..] == [b, c];
    assert Join([a, b, c], sep) == a + sep + (b + sep + c);
  }

  /** Splitting and joining again with the same separator gives back the string. */
  lemma {:induction false} JoinSplitOn(s: string, sep: string)
    requires |sep| > 0
    ensures Join(SplitOn(s, sep), sep) == s
    decreases |s|
  {
    match Find(s, sep)
    case None =>
    case Some(i) =>
      var rest := s[i + |sep|..];
      var pieces := SplitOn(s, sep);
      assert pieces == [s[..i]] + SplitOn(rest, sep);
      assert pieces[1..] == SplitOn(rest, sep);
      JoinSplitOn(rest, sep);
      assert Join(pieces, sep) == s[..i] + sep + Join(SplitOn(rest, sep), sep);
      assert s == s[..i] + s[i..i + |sep|] + rest;
  }

  /** Joining pieces free of the one-character separator and splitting again gives back the pieces. */
  lemma {:induction false} SplitOnJoinChar(pieces: seq<string>, c: char)
    requires |pieces| >= 1
    requires forall k, j :: 0 <= k < |pieces| && 0 <= j < |pieces[k]| ==> pieces[k][j] != c
    ensures SplitOn(Join(pieces, [c]), [c]) == pieces
    decreases |pieces|
  {
    var s := Join(pieces, [c]);
    if |pieces| == 1 {
      FindCharAbsent(s, c);
    } else {
      var first, rest := pieces[0], Join(pieces[1..], [c]);
      assert s == first + [c] + rest;
      assert s[|first|] == c;
      FindCharAt(s, c, |first|);
      assert s[..|first|] == first;
      assert s[|first| + 1..] == rest;
      SplitOnJoinChar(pieces[1..], c);
    }
  }

  /** The number of times the character `c` occurs in `s`. */
  function CountChar(s: string, c: char): (n: nat)
    ensures n <= |s|
  {
    if s == [] then 0 else (if s[0] == c then 1 else 0) + CountChar(s[1..], c)
  }

  lemma {:induction false} CountCharAbsent(s: string, c: char)
    requires forall j :: 0 <= j < |s| ==> s[j] != c
    ensures CountChar(s, c) == 0
  {
    if s != [] {
      CountCharAbsent(s[1..], c);
    }
  }

  lemma {:induction false} CountCharConcat(a: string, b: string, c: char)
    ensures CountChar(a + b, c) == CountChar(a, c) + CountChar(b, c)
  {
    if a != [] {
      assert (a + b)[0] == a[0] && (a + b)[1..] == a[1..] + b;
      CountCharConcat(a[1..], b, c);
    } else {
      assert a + b == b;
    }
  }

  /** Splitting on a one-character separator gives one piece more than there are separators. */
  lemma {:induction false} SplitOnCharCount(s: string, c: char)
    ensures |SplitOn(s, [c])| == CountChar(s, c) + 1
    decreases |s|
  {
    match Find(s, [c])
    case None =>
      forall j | 0 <= j < |s| ensures s[j] != c {
        assert s[j] == c ==> OccursAt(s, [c], j);
      }
      CountCharAbsent(s, c);
    case Some(i) =>
      var rest := s[i + 1..];
      forall j | 0 <= j < |s[..i]| ensures s[..i][j] != c {
        assert s[j] == c ==> OccursAt(s, [c], j);
      }
      CountCharAbsent(s[..i], c);
      assert s[i] == s[i..i + 1][0] == c;
      assert s == s[..i] + ([s[i]] + rest);
      CountCharConcat(s[..i], [s[i]] + rest, c);
      assert CountChar([s[i]] + rest, c) == 1 + CountChar(rest, c);
      assert SplitOn(s, [c]) == [s[..i]] + SplitOn(rest, [c]);
      SplitOnCharCount(rest, c);
  }

  /** Python's `str.isspace` for one character, which is what `s.split()` splits on. */
  predicate IsSpace(c: char) {
    || c == ' '
    || '\t' <= c <= '\r'
    || '\U{1c}' <= c <= '\U{1f}'
    || c == '\U{85}' || c == '\U{a0}' || c == '\U{1680}'
    || '\U{2000}' <= c <= '\U{200a}'
    || c == '\U{2028}' || c == '\U{2029}' || c == '\U{202f}' || c == '\U{205f}' || c == '\U{3000}'
  }

  /** The length of the longest prefix of `s` free of whitespace. */
  function WordLength(s: string): (n: nat)
    ensures n <= |s|
    ensures forall i :: 0 <= i < n ==> !IsSpace(s[i])
    ensures n == |s| || IsSpace(s[n])
  {
    if s == [] || IsSpace(s[0]) then 0 else 1 + WordLength(s[1..])
  }

  /** Python's `s.split()`: the maximal runs of non-whitespace characters, in order. */
  function SplitWhitespace(s: string): (r: seq<string>)
    ensures |r| <= |s|
    ensures forall k :: 0 <= k < |r| ==> r[k] != []
    ensures forall k, i :: 0 <= k < |r| && 0 <= i < |r[k]| ==> !IsSpace(r[k][i])
    decreases |s|
  {
    if s == [] then []
    else if IsSpace(s[0]) then SplitWhitespace(s[1..])
    else
      var n := WordLength(s);
      [s[..n]] + SplitWhitespace(s[n..])
  }

  /**
    An independent count of the words of `s`: the positions holding a
    non-whitespace character that starts `s` or follows whitespace.
    `afterSpace` says whether the position before `s` counts as whitespace.
   */
  function WordStarts(s: string, afterSpace: bool): nat {
    if s == [] then 0
    else (if afterSpace && !IsSpace(s[0]) then 1 else 0) + WordStarts(s[1..], IsSpace(s[0]))
  }

  lemma {:induction false} SkipWord(t: string, m: nat)
    requires m <= |t|
    requires forall i :: 0 <= i < m ==> !IsSpace(t[i])
    requires m == |t| || IsSpace(t[m])
    ensures WordStarts(t, false) == WordStarts(t[m..], true)
  {
    if m > 0 {
      assert t[1..][m - 1..] == t[m..];
      SkipWord(t[1..], m - 1);
    }
  }

  /** `s.split()` finds exactly as many words as there are word starts. */
  lemma {:induction false} SplitWhitespaceCount(s: string)
    ensures |SplitWhitespace(s)| == WordStarts(s, true)
    decreases |s|
  {
    if s == [] {
    } else if IsSpace(s[0]) {
      SplitWhitespaceCount(s[1..]);
    } else {
      var n := WordLength(s);
      SkipWord(s[1..], n - 1);
      assert s[1..][n - 1..] == s[n..];
      SplitWhitespaceCount(s[n..]);
    }
  }

  /** A string made only of whitespace, the empty one included, has no words. */
  lemma {:induction false} AllSpaceNoWords(s: string)
    requires forall i :: 0 <= i < |s| ==> IsSpace(s[i])
    ensures SplitWhitespace(s) == []
  {
    if s != [] {
      AllSpaceNoWords(s[1..]);
    }
  }
}
