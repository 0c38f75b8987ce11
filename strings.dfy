/**
 * Slash-separated strings: Rust's `str::split("/")` and its inverse, joining
 * with "/". Split is defined the way a left-to-right scan builds it: each
 * character either closes the current piece (a slash) or extends it.
 */
module Strings {

  const Slash: char := '/'

  /** One step of the scan: a slash starts a new, empty piece; any other character extends the last piece. */
  function Push(parts: seq<string>, c: char): (r: seq<string>)
    requires |parts| >= 1
    ensures |r| >= 1
  {
    if c == Slash then parts + [""]
    else parts[..|parts| - 1] + [parts[|parts| - 1] + [c]]
  }

  /** The pieces of `s` between slashes, in order, as Rust's `split("/")` yields them; never none. */
  function Split(s: string): (parts: seq<string>)
    ensures |parts| >= 1
    decreases |s|
  {
    if s == [] then [""]
    else Push(Split(s[..|s| - 1]), s[|s| - 1])
  }

  /** There is one more piece than there are slashes. */
  lemma {:induction false} SplitCount(s: string)
    ensures |Split(s)| == multiset(s)[Slash] + 1
    decreases |s|
  {
    if s != [] {
      var init, c := s[..|s| - 1], s[|s| - 1];
      assert s == init + [c];
      assert multiset(s) == multiset(init) + multiset{c};
      SplitCount(init);
    }
  }

  /** No piece holds a slash. */
  lemma {:induction false} SplitPiecesNoSlash(s: string)
    ensures forall i :: 0 <= i < |Split(s)| ==> Slash !in Split(s)[i]
    decreases |s|
  {
    if s != [] {
      SplitPiecesNoSlash(s[..|s| - 1]);
    }
  }

  /** Splitting a string with one more character at the end is one more scan step. */
  lemma SplitSnoc(init: string, c: char)
    ensures Split(init + [c]) == Push(Split(init), c)
  {
  }

  /** The pieces glued back together with a slash between neighbours. */
  function Join(parts: seq<string>): string
    requires |parts| >= 1
  {
    if |parts| == 1 then parts[0]
    else Join(parts[..|parts| - 1]) + [Slash] + parts[|parts| - 1]
  }

  /** Extending the last piece extends the joined string by the same text. */
  lemma JoinExtendLast(parts: seq<string>, t: string)
    requires |parts| >= 1
    ensures Join(parts[..|parts| - 1] + [parts[|parts| - 1] + t]) == Join(parts) + t
  {
  }

  /** Splitting loses nothing: joining the pieces with "/" gives back the input. */
  lemma {:induction false} JoinSplit(s: string)
    ensures Join(Split(s)) == s
    decreases |s|
  {
    if s != [] {
      var init, c := s[..|s| - 1], s[|s| - 1];
      assert s == init + [c];
      var p := Split(init);
      JoinSplit(init);
      if c == Slash {
        assert (p + [""])[..|p|] == p;
      } else {
        JoinExtendLast(p, [c]);
      }
    }
  }

  /** A string without a slash is a single piece. */
  lemma {:induction false} SplitNoSlash(s: string)
    requires Slash !in s
    ensures Split(s) == [s]
    decreases |s|
  {
    if s != [] {
      var init := s[..|s| - 1];
      assert s == init + [s[|s| - 1]];
      SplitNoSlash(init);
    }
  }

  /** A scan step on the tail of a list of pieces leaves the pieces in front alone. */
  lemma PushAppend(front: seq<string>, back: seq<string>, c: char)
    requires |back| >= 1
    ensures Push(front + back, c) == front + Push(back, c)
  {
  }

  /** Splitting `a + "/" + b` splits `a` and `b` separately: the slash is a piece boundary. */
  lemma {:induction false} SplitAround(a: string, b: string)
    ensures Split(a + [Slash] + b) == Split(a) + Split(b)
    decreases |b|
  {
    if b == [] {
      assert a + [Slash] + b == a + [Slash];
      SplitSnoc(a, Slash);
    } else {
      var b', c := b[..|b| - 1], b[|b| - 1];
      assert b == b' + [c];
      var s' := a + [Slash] + b';
      assert a + [Slash] + b == s' + [c];
      calc {
        Split(s' + [c]);
        { SplitSnoc(s', c); }
        Push(Split(s'), c);
        { SplitAround(a, b'); }
        Push(Split(a) + Split(b'), c);
        { PushAppend(Split(a), Split(b'), c); }
        Split(a) + Push(Split(b'), c);
        { SplitSnoc(b', c); }
        Split(a) + Split(b);
      }
    }
  }

  /** The last piece is empty exactly when the string is empty or ends with a slash. */
  lemma SplitLastEmpty(s: string)
    ensures Split(s)[|Split(s)| - 1] == "" <==> (s == [] || s[|s| - 1] == Slash)
  {
  }

  /** One step of the scan in SplitOnSlash keeps its invariant. */
  lemma ScanStep(s: string, i: nat, parts: seq<string>, current: string)
    requires i < |s| && parts + [current] == Split(s[..i])
    ensures s[i] == Slash ==> parts + [current] + [""] == Split(s[..i + 1])
    ensures s[i] != Slash ==> parts + [current + [s[i]]] == Split(s[..i + 1])
  {
    assert s[..i + 1] == s[..i] + [s[i]];
    SplitSnoc(s[..i], s[i]);
    var q := parts + [current];
    assert q[..|q| - 1] == parts;
  }

  /** The scan behind Rust's `split("/").map(|x| x.to_string()).collect()`. */
  method SplitOnSlash(s: string) returns (parts: seq<string>)
    ensures parts == Split(s)
  {
    parts := [];
    var current := "";
    var i := 0;
    while i < |s|
      invariant 0 <= i <= |s|
      invariant parts + [current] == Split(s[..i])
    {
      ScanStep(s, i, parts, current);
      if s[i] == Slash {
        parts := parts + [current];
        current := "";
      } else {
        current := current + [s[i]];
      }
      i := i + 1;
    }
    assert s[..i] == s;
    parts := parts + [current];
  }
}
