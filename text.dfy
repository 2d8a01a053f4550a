/**
 * String helpers the application relies on: JavaScript's white-space class
 * (the `\s` of a regular expression and the characters `String.prototype.trim`
 * removes), `trim`, `text.split(/\s+/).filter(Boolean)` used as a word
 * counter, and `toUpperCase` restricted to ASCII letters.
 */
module Text {

  /** ECMAScript WhiteSpace and LineTerminator code points, by code point. */
  predicate IsSpace(c: char) {
    var n := c as int;
    (0x09 <= n <= 0x0D) || n == 0x20 || n == 0xA0 || n == 0x1680
    || (0x2000 <= n <= 0x200A) || n == 0x2028 || n == 0x2029
    || n == 0x202F || n == 0x205F || n == 0x3000 || n == 0xFEFF
  }

  ghost predicate AllSpace(s: string) {
    forall i :: 0 <= i < |s| ==> IsSpace(s[i])
  }

  ghost predicate NoSpace(s: string) {
    forall i :: 0 <= i < |s| ==> !IsSpace(s[i])
  }

  // ---------------------------------------------------------------- runs

  /** The first index at or after `i` holding a non-space character, or `|s|`. */
  function SpaceEnd(s: string, i: nat): (k: nat)
    requires i <= |s|
    ensures i <= k <= |s|
    ensures forall m :: i <= m < k ==> IsSpace(s[m])
    ensures k < |s| ==> !IsSpace(s[k])
    ensures i < |s| && IsSpace(s[i]) ==> i < k
    decreases |s| - i
  {
    if i == |s| || !IsSpace(s[i]) then i else SpaceEnd(s, i + 1)
  }

  /** The first index at or after `i` holding a white-space character, or `|s|`. */
  function WordEnd(s: string, i: nat): (k: nat)
    requires i <= |s|
    ensures i <= k <= |s|
    ensures forall m :: i <= m < k ==> !IsSpace(s[m])
    ensures k < |s| ==> IsSpace(s[k])
    ensures i < |s| && !IsSpace(s[i]) ==> i < k
    decreases |s| - i
  {
    if i == |s| || IsSpace(s[i]) then i else WordEnd(s, i + 1)
  }

  /** Where the white space that ends `s[..j]` begins. */
  function TrailingStart(s: string, j: nat): (k: nat)
    requires j <= |s|
    ensures k <= j
    ensures forall m :: k <= m < j ==> IsSpace(s[m])
    ensures 0 < k ==> !IsSpace(s[k - 1])
    decreases j
  {
    if j == 0 || !IsSpace(s[j - 1]) then j else TrailingStart(s, j - 1)
  }

  // ---------------------------------------------------------------- trim

  /** `s` without its leading white space. */
  function TrimStart(s: string): (r: string)
    ensures |r| <= |s| && r == s[|s| - |r|..]
    ensures AllSpace(s[..|s| - |r|])
    ensures r == [] || !IsSpace(r[0])
  {
    s[SpaceEnd(s, 0)..]
  }

  /** `s` without its trailing white space. */
  function TrimEnd(s: string): (r: string)
    ensures |r| <= |s| && r == s[..|r|]
    ensures AllSpace(s[|r|..])
    ensures r == [] || !IsSpace(r[|r| - 1])
  {
    s[..TrailingStart(s, |s|)]
  }

  /** JavaScript's `s.trim()`. */
  function Trim(s: string): (r: string)
    ensures |r| <= |s|
    ensures r == [] <==> AllSpace(s)
    ensures r != [] ==> !IsSpace(r[0]) && !IsSpace(r[|r| - 1])
  {
    var t := TrimStart(s);
    var r := TrimEnd(t);
    TrimStartEmpty(s);
    TrimEndEmpty(t);
    assert AllSpace(t) ==> t == [] by {
      if t != [] { assert !IsSpace(t[0]); }
    }
    assert r != [] ==> r[0] == t[0];
    r
  }

  /** Nothing is left of the text after its leading white space exactly when it is all white space. */
  lemma TrimStartEmpty(s: string)
    ensures TrimStart(s) == [] <==> AllSpace(s)
  {
    var t := TrimStart(s);
    if t == [] {
      assert s[..|s|] == s;
    } else {
      assert t[0] == s[|s| - |t|];
    }
  }

  /** Nothing is left of the text before its trailing white space exactly when it is all white space. */
  lemma TrimEndEmpty(s: string)
    ensures TrimEnd(s) == [] <==> AllSpace(s)
  {
    var r := TrimEnd(s);
    if r == [] {
      assert s[|r|..] == s;
    } else {
      assert r[|r| - 1] == s[|r| - 1];
    }
  }

  lemma TrimStartPadded(p: string, u: string)
    requires AllSpace(p) && (u == [] || !IsSpace(u[0]))
    ensures TrimStart(p + u) == u
  {
    var s := p + u;
    assert s[|p|..] == u;
  }

  /** White space after a text that ends with a non-space character is exactly what `TrimEnd` removes. */
  lemma TrimEndPadded(u: string, q: string)
    requires AllSpace(q) && (u == [] || !IsSpace(u[|u| - 1]))
    ensures TrimEnd(u + q) == u
  {
    var s := u + q;
    assert s[..|u|] == u;
  }

  /**
   * `Trim` is characterised by its result alone: whatever white space pads a
   * text with non-blank ends, trimming gives exactly that text back.
   */
  lemma TrimRemovesPadding(p: string, t: string, q: string)
    requires AllSpace(p) && AllSpace(q)
    requires t == [] || (!IsSpace(t[0]) && !IsSpace(t[|t| - 1]))
    ensures Trim(p + t + q) == t
  {
    if t == [] {
      assert p + t + q == (p + q) + [];
      assert AllSpace(p + q) by {
        forall i | 0 <= i < |p + q| ensures IsSpace((p + q)[i]) {
          if i >= |p| { assert (p + q)[i] == q[i - |p|]; }
        }
      }
      TrimStartPadded(p + q, []);
    } else {
      assert p + t + q == p + (t + q);
      assert (t + q)[0] == t[0];
      TrimStartPadded(p, t + q);
      TrimEndPadded(t, q);
    }
  }

  // ------------------------------------------------------ splitting words

  /**
   * JavaScript's `s.split(/\s+/)` applied to `s[i..]`: the pieces between
   * maximal runs of white space, including the empty piece before a leading
   * run and after a trailing one (`"".split(/\s+/)` is `[""]`).
   */
  function SplitFrom(s: string, i: nat): (pieces: seq<string>)
    requires i <= |s|
    ensures |pieces| >= 1
    ensures forall p :: 0 <= p < |pieces| ==> NoSpace(pieces[p])
    decreases |s| - i
  {
    var k := WordEnd(s, i);
    if k == |s| then [s[i..]]
    else [s[i..k]] + SplitFrom(s, SpaceEnd(s, k))
  }

  /** JavaScript's `s.split(/\s+/)`. */
  function Split(s: string): (pieces: seq<string>)
    ensures |pieces| >= 1
    ensures forall p :: 0 <= p < |pieces| ==> NoSpace(pieces[p])
  {
    SplitFrom(s, 0)
  }

  lemma SplitFromFirst(s: string, i: nat)
    requires i <= |s|
    ensures SplitFrom(s, i)[0] == s[i..WordEnd(s, i)]
  {
  }

  /** One step of splitting: the leading word, then the pieces after the white space that follows it. */
  lemma SplitFromStep(s: string, i: nat)
    requires i <= |s| && WordEnd(s, i) < |s|
    ensures SplitFrom(s, i) == [s[i..WordEnd(s, i)]] + SplitFrom(s, SpaceEnd(s, WordEnd(s, i)))
  {
  }

  /** The first piece is empty exactly when the text is empty or starts with white space. */
  lemma SplitFirstEmpty(s: string)
    ensures Split(s)[0] == [] <==> s == [] || IsSpace(s[0])
  {
    SplitFromFirst(s, 0);
  }

  lemma {:induction false} SplitFromLastEmpty(s: string, i: nat)
    requires i <= |s|
    ensures var pieces := SplitFrom(s, i);
      pieces[|pieces| - 1] == [] <==> i == |s| || IsSpace(s[|s| - 1])
    decreases |s| - i
  {
    var k := WordEnd(s, i);
    if k < |s| {
      var e := SpaceEnd(s, k);
      var rest := SplitFrom(s, e);
      SplitFromStep(s, i);
      assert SplitFrom(s, i)[|SplitFrom(s, i)| - 1] == rest[|rest| - 1];
      SplitFromLastEmpty(s, e);
    }
  }

  /** The last piece is empty exactly when the text is empty or ends with white space. */
  lemma SplitLastEmpty(s: string)
    ensures var pieces := Split(s); pieces[|pieces| - 1] == [] <==> s == [] || IsSpace(s[|s| - 1])
  {
    SplitFromLastEmpty(s, 0);
  }

  lemma {:induction false} SplitFromInnerNonEmpty(s: string, i: nat)
    requires i <= |s|
    ensures var pieces := SplitFrom(s, i); forall p :: 0 < p < |pieces| - 1 ==> pieces[p] != []
    decreases |s| - i
  {
    var k := WordEnd(s, i);
    if k < |s| {
      var e := SpaceEnd(s, k);
      var rest := SplitFrom(s, e);
      SplitFromStep(s, i);
      SplitFromFirst(s, e);
      SplitFromInnerNonEmpty(s, e);
      if e == |s| {
        assert WordEnd(s, e) == e && |rest| == 1;
      }
      forall p | 0 < p < |SplitFrom(s, i)| - 1 ensures SplitFrom(s, i)[p] != [] {
        assert SplitFrom(s, i)[p] == rest[p - 1];
      }
    }
  }

  /**
   * `w` is the piece that starts at index `a`: `a` is the start of the text
   * or follows white space, and `w` runs from `a` up to the next white space.
   */
  predicate PieceAt(s: string, a: nat, w: string) {
    a <= |s| && (a == 0 || IsSpace(s[a - 1])) && w == s[a..WordEnd(s, a)]
  }

  /** Each of `pieces` is the piece at the matching one of `starts`, all at or after `i`, in increasing order. */
  predicate CutsFrom(s: string, i: nat, starts: seq<nat>, pieces: seq<string>) {
    && |starts| == |pieces|
    && (forall p :: 0 <= p < |starts| ==> i <= starts[p] && PieceAt(s, starts[p], pieces[p]))
    && Increasing(starts)
  }

  predicate Increasing(starts: seq<nat>) {
    forall p, q :: 0 <= p < q < |starts| ==> starts[p] < starts[q]
  }

  lemma IncreasingCons(i: nat, more: seq<nat>)
    requires Increasing(more) && forall p :: 0 <= p < |more| ==> i < more[p]
    ensures Increasing([i] + more)
  {
    var starts := [i] + more;
    forall p, q | 0 <= p < q < |starts| ensures starts[p] < starts[q] {
      assert starts[q] == more[q - 1];
      assert p > 0 ==> starts[p] == more[p - 1];
    }
  }

  lemma CutsFromCons(s: string, i: nat, e: nat, w: string, more: seq<nat>, rest: seq<string>)
    requires i < e && PieceAt(s, i, w) && CutsFrom(s, e, more, rest)
    ensures CutsFrom(s, i, [i] + more, [w] + rest)
  {
    var starts, pieces := [i] + more, [w] + rest;
    forall p | 0 < p < |starts| ensures i <= starts[p] && PieceAt(s, starts[p], pieces[p]) {
      assert starts[p] == more[p - 1] && pieces[p] == rest[p - 1];
    }
    IncreasingCons(i, more);
  }

  lemma {:induction false} SplitFromCutsAtSpace(s: string, i: nat) returns (starts: seq<nat>)
    requires i <= |s| && (i == 0 || IsSpace(s[i - 1]))
    ensures CutsFrom(s, i, starts, SplitFrom(s, i))
    decreases |s| - i
  {
    var k := WordEnd(s, i);
    SplitFromFirst(s, i);
    assert PieceAt(s, i, s[i..k]);
    if k == |s| {
      starts := [i];
      assert SplitFrom(s, i) == [s[i..k]];
    } else {
      var e := SpaceEnd(s, k);
      SplitFromStep(s, i);
      assert IsSpace(s[e - 1]);
      var more := SplitFromCutsAtSpace(s, e);
      CutsFromCons(s, i, e, s[i..k], more, SplitFrom(s, e));
      starts := [i] + more;
    }
  }

  /**
   * Every piece is a whole word of the text: the pieces start at increasing
   * indices, each at the start of the text or right after white space, and
   * each runs up to the next white space.
   */
  lemma SplitCutsAtSpace(s: string) returns (starts: seq<nat>)
    ensures |starts| == |Split(s)|
    ensures forall p :: 0 <= p < |starts| ==> PieceAt(s, starts[p], Split(s)[p])
    ensures forall p, q :: 0 <= p < q < |starts| ==> starts[p] < starts[q]
  {
    starts := SplitFromCutsAtSpace(s, 0);
    assert Split(s) == SplitFrom(s, 0);
  }

  /** No piece strictly between the first and the last is empty. */
  lemma SplitInnerNonEmpty(s: string)
    ensures var pieces := Split(s); forall p :: 0 < p < |pieces| - 1 ==> pieces[p] != []
  {
    SplitFromInnerNonEmpty(s, 0);
    assert Split(s) == SplitFrom(s, 0);
  }

  /** `pieces.filter(Boolean)`: the non-empty pieces, in order. */
  function KeepNonEmpty(pieces: seq<string>): (kept: seq<string>)
    ensures |kept| <= |pieces|
    ensures forall w :: w in kept ==> w != [] && w in pieces
  {
    if pieces == [] then []
    else (if pieces[0] == [] then [] else [pieces[0]]) + KeepNonEmpty(pieces[1..])
  }

  /** Filtering drops exactly the empty pieces: every other piece is kept. */
  lemma {:induction false} KeepNonEmptyExact(pieces: seq<string>)
    ensures |KeepNonEmpty(pieces)| + multiset(pieces)[[]] == |pieces|
    ensures forall i :: 0 <= i < |pieces| && pieces[i] != [] ==> pieces[i] in KeepNonEmpty(pieces)
  {
    if pieces != [] {
      assert pieces == [pieces[0]] + pieces[1..];
      KeepNonEmptyExact(pieces[1..]);
      forall i | 0 < i < |pieces| && pieces[i] != []
        ensures pieces[i] in KeepNonEmpty(pieces)
      {
        assert pieces[i] == pieces[1..][i - 1];
      }
    }
  }

  /** Filtering works piece by piece, so it keeps the order of the pieces. */
  lemma {:induction false} KeepNonEmptyAppend(a: seq<string>, b: seq<string>)
    ensures KeepNonEmpty(a + b) == KeepNonEmpty(a) + KeepNonEmpty(b)
  {
    if a == [] {
      assert a + b == b;
    } else {
      assert (a + b)[0] == a[0];
      assert (a + b)[1..] == a[1..] + b;
      KeepNonEmptyAppend(a[1..], b);
    }
  }

  /** The words of `s`: `s.split(/\s+/).filter(Boolean)`. */
  function Words(s: string): (ws: seq<string>)
    ensures forall w :: w in ws ==> w != [] && NoSpace(w)
  {
    KeepNonEmpty(Split(s))
  }

  /** The word count the form displays and limits. */
  function WordCount(s: string): nat {
    |Words(s)|
  }

  /**
   * Reference definition of the word count, independent of splitting: scan
   * `s[i..]` left to right and count the places where a non-space character
   * follows white space or the start of the text (`afterSpace` says which
   * side of that boundary the scan is on).
   */
  function WordStartsFrom(s: string, i: nat, afterSpace: bool): nat
    requires i <= |s|
    decreases |s| - i
  {
    if i == |s| then 0
    else (if afterSpace && !IsSpace(s[i]) then 1 else 0) + WordStartsFrom(s, i + 1, IsSpace(s[i]))
  }

  function WordStarts(s: string): nat {
    WordStartsFrom(s, 0, true)
  }

  lemma {:induction false} StartsAcrossWord(s: string, i: nat, k: nat, afterSpace: bool)
    requires i <= k <= |s| && forall m :: i <= m < k ==> !IsSpace(s[m])
    ensures WordStartsFrom(s, i, afterSpace)
         == (if k > i && afterSpace then 1 else 0) + WordStartsFrom(s, k, if k > i then false else afterSpace)
    decreases k - i
  {
    if i < k {
      StartsAcrossWord(s, i + 1, k, false);
    }
  }

  lemma {:induction false} StartsAcrossSpaces(s: string, i: nat, j: nat, afterSpace: bool)
    requires i < j <= |s| && forall m :: i <= m < j ==> IsSpace(s[m])
    ensures WordStartsFrom(s, i, afterSpace) == WordStartsFrom(s, j, true)
    decreases j - i
  {
    if i + 1 < j {
      StartsAcrossSpaces(s, i + 1, j, true);
    }
  }

  lemma KeepNonEmptyCons(x: string, rest: seq<string>)
    ensures KeepNonEmpty([x] + rest) == (if x == [] then [] else [x]) + KeepNonEmpty(rest)
  {
  }

  lemma {:induction false} WordCountFrom(s: string, i: nat)
    requires i <= |s|
    ensures |KeepNonEmpty(SplitFrom(s, i))| == WordStartsFrom(s, i, true)
    decreases |s| - i
  {
    var k := WordEnd(s, i);
    StartsAcrossWord(s, i, k, true);
    if k == |s| {
      KeepNonEmptyCons(s[i..], []);
    } else {
      var e := SpaceEnd(s, k);
      StartsAcrossSpaces(s, k, e, k == i);
      SplitFromStep(s, i);
      KeepNonEmptyCons(s[i..k], SplitFrom(s, e));
      WordCountFrom(s, e);
    }
  }

  /** Splitting-and-filtering counts exactly the starts of words. */
  lemma WordCountIsWordStarts(s: string)
    ensures WordCount(s) == WordStarts(s)
  {
    WordCountFrom(s, 0);
  }

  lemma {:induction false} NoStartsFrom(s: string, i: nat)
    requires i <= |s|
    ensures WordStartsFrom(s, i, true) == 0 <==> forall m :: i <= m < |s| ==> IsSpace(s[m])
    decreases |s| - i
  {
    if i < |s| {
      NoStartsFrom(s, i + 1);
    }
  }

  lemma NoStartsIffAllSpace(s: string)
    ensures WordStarts(s) == 0 <==> AllSpace(s)
  {
    NoStartsFrom(s, 0);
  }

  /**
   * A text has no words exactly when it is blank, that is, when trimming
   * leaves nothing.
   */
  lemma NoWordsIffBlank(s: string)
    ensures WordCount(s) == 0 <==> Trim(s) == []
  {
    WordCountIsWordStarts(s);
    NoStartsIffAllSpace(s);
  }

  /**
   * Reference count of the white-space runs in `s[i..]`, independent of
   * splitting: the places where white space follows a non-space character or
   * the start of the text.
   */
  function GapStartsFrom(s: string, i: nat, afterSpace: bool): nat
    requires i <= |s|
    decreases |s| - i
  {
    if i == |s| then 0
    else (if !afterSpace && IsSpace(s[i]) then 1 else 0) + GapStartsFrom(s, i + 1, IsSpace(s[i]))
  }

  function GapStarts(s: string): nat {
    GapStartsFrom(s, 0, false)
  }

  lemma {:induction false} GapsAcrossWord(s: string, i: nat, k: nat, afterSpace: bool)
    requires i <= k <= |s| && forall m :: i <= m < k ==> !IsSpace(s[m])
    ensures GapStartsFrom(s, i, afterSpace) == GapStartsFrom(s, k, if k > i then false else afterSpace)
    decreases k - i
  {
    if i < k {
      GapsAcrossWord(s, i + 1, k, false);
    }
  }

  lemma {:induction false} GapsAcrossSpaces(s: string, i: nat, j: nat, afterSpace: bool)
    requires i < j <= |s| && forall m :: i <= m < j ==> IsSpace(s[m])
    ensures GapStartsFrom(s, i, afterSpace) == (if afterSpace then 0 else 1) + GapStartsFrom(s, j, true)
    decreases j - i
  {
    if i + 1 < j {
      GapsAcrossSpaces(s, i + 1, j, true);
    }
  }

  lemma {:induction false} SplitCountsGapsFrom(s: string, i: nat)
    requires i <= |s|
    ensures |SplitFrom(s, i)| == 1 + GapStartsFrom(s, i, false)
    decreases |s| - i
  {
    var k := WordEnd(s, i);
    GapsAcrossWord(s, i, k, false);
    if k < |s| {
      var e := SpaceEnd(s, k);
      GapsAcrossSpaces(s, k, e, false);
      assert GapStartsFrom(s, e, true) == GapStartsFrom(s, e, false);
      SplitFromStep(s, i);
      SplitCountsGapsFrom(s, e);
    }
  }

  /** `split(/\s+/)` cuts at every maximal white-space run: one more piece than there are runs. */
  lemma SplitCountsGaps(s: string)
    ensures |Split(s)| == 1 + GapStarts(s)
  {
    SplitCountsGapsFrom(s, 0);
  }

  /** `s` with every white-space character removed. */
  function Unspaced(s: string): string {
    if s == [] then []
    else (if IsSpace(s[0]) then [] else [s[0]]) + Unspaced(s[1..])
  }

  /** The pieces joined end to end, with nothing in between. */
  function Concat(pieces: seq<string>): string {
    if pieces == [] then [] else pieces[0] + Concat(pieces[1..])
  }

  lemma {:induction false} UnspacedAppend(a: string, b: string)
    ensures Unspaced(a + b) == Unspaced(a) + Unspaced(b)
  {
    if a == [] {
      assert a + b == b;
    } else {
      assert (a + b)[0] == a[0];
      assert (a + b)[1..] == a[1..] + b;
      UnspacedAppend(a[1..], b);
    }
  }

  lemma {:induction false} UnspacedNoSpace(s: string)
    requires NoSpace(s)
    ensures Unspaced(s) == s
  {
    if s != [] {
      UnspacedNoSpace(s[1..]);
      assert s == [s[0]] + s[1..];
    }
  }

  lemma {:induction false} UnspacedAllSpace(s: string)
    requires AllSpace(s)
    ensures Unspaced(s) == []
  {
    if s != [] {
      UnspacedAllSpace(s[1..]);
    }
  }

  lemma ConcatCons(x: string, rest: seq<string>)
    ensures Concat([x] + rest) == x + Concat(rest)
  {
    assert ([x] + rest)[0] == x;
    assert ([x] + rest)[1..] == rest;
  }

  lemma {:induction false} KeepNonEmptyConcat(pieces: seq<string>)
    ensures Concat(KeepNonEmpty(pieces)) == Concat(pieces)
  {
    if pieces != [] {
      var rest := KeepNonEmpty(pieces[1..]);
      KeepNonEmptyConcat(pieces[1..]);
      if pieces[0] != [] {
        ConcatCons(pieces[0], rest);
      } else {
        assert KeepNonEmpty(pieces) == [] + rest == rest;
        assert Concat(pieces) == [] + Concat(pieces[1..]) == Concat(pieces[1..]);
      }
    }
  }

  lemma UnspacedWordGap(word: string, gap: string, tail: string)
    requires NoSpace(word) && AllSpace(gap)
    ensures Unspaced(word + (gap + tail)) == word + Unspaced(tail)
  {
    assert Unspaced(gap + tail) == Unspaced(tail) by {
      UnspacedAppend(gap, tail);
      UnspacedAllSpace(gap);
    }
    assert Unspaced(word + (gap + tail)) == word + Unspaced(gap + tail) by {
      UnspacedAppend(word, gap + tail);
      UnspacedNoSpace(word);
    }
  }

  /** The text from `i` on is a word, the white space after it, and the rest. */
  lemma UnspacedStep(s: string, i: nat, k: nat, e: nat)
    requires i <= k <= e <= |s|
    requires forall m :: i <= m < k ==> !IsSpace(s[m])
    requires forall m :: k <= m < e ==> IsSpace(s[m])
    ensures Unspaced(s[i..]) == s[i..k] + Unspaced(s[e..])
  {
    assert s[i..] == s[i..k] + (s[k..e] + s[e..]);
    UnspacedWordGap(s[i..k], s[k..e], s[e..]);
  }

  lemma {:induction false} SplitFromLosesOnlySpace(s: string, i: nat)
    requires i <= |s|
    ensures Concat(SplitFrom(s, i)) == Unspaced(s[i..])
    decreases |s| - i
  {
    var k := WordEnd(s, i);
    if k == |s| {
      UnspacedNoSpace(s[i..]);
      ConcatCons(s[i..], []);
    } else {
      var e := SpaceEnd(s, k);
      SplitFromStep(s, i);
      ConcatCons(s[i..k], SplitFrom(s, e));
      UnspacedStep(s, i, k, e);
      SplitFromLosesOnlySpace(s, e);
    }
  }

  /**
   * Splitting loses nothing but white space: the pieces joined end to end
   * are the text with its white space removed.
   */
  lemma SplitLosesOnlySpace(s: string)
    ensures Concat(Split(s)) == Unspaced(s)
  {
    SplitFromLosesOnlySpace(s, 0);
    assert s[0..] == s;
  }

  /** The counted words, joined end to end, are the text with its white space removed. */
  lemma WordsLoseOnlySpace(s: string)
    ensures Concat(Words(s)) == Unspaced(s)
  {
    SplitLosesOnlySpace(s);
    KeepNonEmptyConcat(Split(s));
  }

  /** Two words with white space between them count as two. */
  lemma TwoWordsCount(first: string, gap: string, second: string)
    requires first != [] && NoSpace(first)
    requires gap != [] && AllSpace(gap)
    requires second != [] && NoSpace(second)
    ensures WordCount(first + (gap + second)) == 2
  {
    var s := first + (gap + second);
    var a, b := |first|, |first| + |gap|;
    assert forall m :: 0 <= m < a ==> s[m] == first[m];
    assert forall m :: a <= m < b ==> s[m] == gap[m - a];
    assert forall m :: b <= m < |s| ==> s[m] == second[m - b];
    StartsAcrossWord(s, 0, a, true);
    StartsAcrossSpaces(s, a, b, false);
    StartsAcrossWord(s, b, |s|, true);
    WordCountIsWordStarts(s);
  }

  /** Trimming leaves a text that starts and ends with a non-space character as it is. */
  lemma TrimKeepsUnpadded(s: string)
    requires s != [] && !IsSpace(s[0]) && !IsSpace(s[|s| - 1])
    ensures Trim(s) == s
  {
    assert [] + s + [] == s;
    TrimRemovesPadding([], s, []);
  }

  // ------------------------------------------------------------ upper case

  /** `toUpperCase` on one character, for the ASCII letters. */
  function UpperChar(c: char): char {
    if 'a' <= c <= 'z' then (c as int - 32) as char else c
  }

  /** `toLowerCase` on one character, for the ASCII letters. */
  function LowerChar(c: char): char {
    if 'A' <= c <= 'Z' then (c as int + 32) as char else c
  }

  /** `s.toUpperCase()`, character by character. */
  function Upper(s: string): string {
    seq(|s|, i requires 0 <= i < |s| => UpperChar(s[i]))
  }

  /** Upper-casing a text that is already upper case changes nothing. */
  lemma UpperIdempotent(s: string)
    ensures Upper(Upper(s)) == Upper(s)
  {
  }
}
