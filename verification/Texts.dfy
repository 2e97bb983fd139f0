/** Cutting a string at the first or the last occurrence of a character. */
module Texts {
  import opened Results

  /** The text before and after the first c. */
  function Cut(s: string, c: char): Option<(string, string)> {
    if s == "" then None
    else if s[0] == c then Some(("", s[1..]))
    else
      match Cut(s[1..], c)
      case None => None
      case Some((head, tail)) => Some(([s[0]] + head, tail))
  }

  /** The text before and after the last c. */
  function CutLast(s: string, c: char): Option<(string, string)> {
    if s == "" then None
    else if s[|s| - 1] == c then Some((s[..|s| - 1], ""))
    else
      match CutLast(s[..|s| - 1], c)
      case None => None
      case Some((head, tail)) => Some((head, tail + [s[|s| - 1]]))
  }

  lemma {:induction false} CutFinds(head: string, c: char, tail: string)
    requires c !in head
    ensures Cut(head + [c] + tail, c) == Some((head, tail))
  {
    var s := head + [c] + tail;
    if head == "" {
      assert s == [c] + tail;
    } else {
      CutFinds(head[1..], c, tail);
      assert s[1..] == head[1..] + [c] + tail;
      assert head == [head[0]] + head[1..];
    }
  }

  lemma {:induction false} CutLastFinds(head: string, c: char, tail: string)
    requires c !in tail
    ensures CutLast(head + [c] + tail, c) == Some((head, tail))
  {
    var s := head + [c] + tail;
    if tail == "" {
      assert s[..|s| - 1] == head;
    } else {
      var n := |tail| - 1;
      CutLastFinds(head, c, tail[..n]);
      assert s[..|s| - 1] == head + [c] + tail[..n];
      assert tail == tail[..n] + [tail[n]];
    }
  }

  lemma {:induction false} CutIs(s: string, c: char)
    ensures match Cut(s, c)
            case None => c !in s
            case Some((head, tail)) => c !in head && s == head + [c] + tail
  {
    if s != "" && s[0] != c {
      CutIs(s[1..], c);
      assert s == [s[0]] + s[1..];
    }
  }

  lemma {:induction false} CutLastIs(s: string, c: char)
    ensures match CutLast(s, c)
            case None => c !in s
            case Some((head, tail)) => c !in tail && s == head + [c] + tail
  {
    if s != "" && s[|s| - 1] != c {
      CutLastIs(s[..|s| - 1], c);
      assert s == s[..|s| - 1] + [s[|s| - 1]];
    }
  }
}
