/**
 * Where things stand in a text assembled by concatenation: the field lines of
 * the wizard post (one `prefix + value` line per template entry, joined by
 * newlines) and the post's four parts.
 */
module Layout {
  import opened Drafts

  /** One line of the post: its prefix, then the value stored under its key. */
  function Line(l: (string, string), data: map<string, string>): string {
    l.0 + Value(data, l.1)
  }

  /** Lines `k` to the end, separated by `"\n"`. */
  function JoinFrom(ls: seq<(string, string)>, data: map<string, string>, k: nat): string
    requires k < |ls|
    decreases |ls| - k
  {
    Line(ls[k], data) + (if k + 1 == |ls| then "" else "\n" + JoinFrom(ls, data, k + 1))
  }

  /** `prefix + value` per line, lines separated by `"\n"`. */
  function JoinLines(ls: seq<(string, string)>, data: map<string, string>): string {
    if ls == [] then "" else JoinFrom(ls, data, 0)
  }

  /** Where the value of line `i` starts in `JoinFrom(ls, data, k)`. */
  function OffsetFrom(ls: seq<(string, string)>, data: map<string, string>, k: nat, i: nat): nat
    requires k <= i < |ls|
    decreases i - k
  {
    if i == k then |ls[k].0| else |Line(ls[k], data)| + 1 + OffsetFrom(ls, data, k + 1, i)
  }

  /** Where the value of line `i` starts in `JoinLines(ls, data)`. */
  function ValueOffset(ls: seq<(string, string)>, data: map<string, string>, i: nat): nat
    requires i < |ls|
  {
    OffsetFrom(ls, data, 0, i)
  }

  lemma SliceAfter(a: string, b: string, x: nat, y: nat)
    requires x <= y <= |b|
    ensures (a + b)[|a| + x..|a| + y] == b[x..y]
  {
  }

  lemma SliceBefore(a: string, b: string, x: nat, y: nat)
    requires x <= y <= |a|
    ensures (a + b)[x..y] == a[x..y]
  {
  }

  /** A slice of the lines after the first one, seen from the whole text. */
  lemma SliceAfterNewline(head: string, rest: string, x: nat, y: nat)
    requires x <= y <= |rest|
    ensures (head + ("\n" + rest))[|head| + 1 + x..|head| + 1 + y] == rest[x..y]
  {
    SliceAfter(head, "\n" + rest, 1 + x, 1 + y);
    SliceAfter("\n", rest, x, y);
  }

  /** Within one line followed by anything, the prefix and then the value. */
  lemma LineAt(p: string, v: string, tail: string)
    ensures |p| + |v| <= |(p + v) + tail|
    ensures ((p + v) + tail)[..|p|] == p
    ensures ((p + v) + tail)[|p|..|p| + |v|] == v
  {
    SliceBefore(p + v, tail, |p|, |p| + |v|);
    SliceAfter(p, v, 0, |v|);
    SliceBefore(p + v, tail, 0, |p|);
    SliceBefore(p, v, 0, |p|);
  }

  /** The value of line `i` sits at `OffsetFrom(ls, data, k, i)`. */
  lemma {:induction false} ValueAtFrom(ls: seq<(string, string)>, data: map<string, string>, k: nat, i: nat)
    requires k <= i < |ls|
    ensures OffsetFrom(ls, data, k, i) + |Value(data, ls[i].1)| <= |JoinFrom(ls, data, k)|
    ensures JoinFrom(ls, data, k)[OffsetFrom(ls, data, k, i)..OffsetFrom(ls, data, k, i) + |Value(data, ls[i].1)|]
            == Value(data, ls[i].1)
    decreases i - k
  {
    if i == k {
      LineAt(ls[k].0, Value(data, ls[k].1), if k + 1 == |ls| then "" else "\n" + JoinFrom(ls, data, k + 1));
    } else {
      var o' := OffsetFrom(ls, data, k + 1, i);
      ValueAtFrom(ls, data, k + 1, i);
      SliceAfterNewline(Line(ls[k], data), JoinFrom(ls, data, k + 1), o', o' + |Value(data, ls[i].1)|);
    }
  }

  /** Right before the value of line `i` stands that line's prefix. */
  lemma {:induction false} PrefixAtFrom(ls: seq<(string, string)>, data: map<string, string>, k: nat, i: nat)
    requires k <= i < |ls|
    ensures |ls[i].0| <= OffsetFrom(ls, data, k, i) <= |JoinFrom(ls, data, k)|
    ensures JoinFrom(ls, data, k)[OffsetFrom(ls, data, k, i) - |ls[i].0|..OffsetFrom(ls, data, k, i)] == ls[i].0
    decreases i - k
  {
    if i == k {
      LineAt(ls[k].0, Value(data, ls[k].1), if k + 1 == |ls| then "" else "\n" + JoinFrom(ls, data, k + 1));
    } else {
      var o' := OffsetFrom(ls, data, k + 1, i);
      PrefixAtFrom(ls, data, k + 1, i);
      SliceAfterNewline(Line(ls[k], data), JoinFrom(ls, data, k + 1), o' - |ls[i].0|, o');
    }
  }
  /** The values occur in line order and do not overlap. */
  lemma {:induction false} OffsetIncreasing(ls: seq<(string, string)>, data: map<string, string>, k: nat, i: nat)
    requires k <= i && i + 1 < |ls|
    ensures OffsetFrom(ls, data, k, i) + |Value(data, ls[i].1)| < OffsetFrom(ls, data, k, i + 1)
    decreases i - k
  {
    if i > k {
      OffsetIncreasing(ls, data, k + 1, i);
    }
  }

  /** Only the values stored under the lines' keys matter. */
  lemma {:induction false} JoinFromDependsOnKeys(ls: seq<(string, string)>, d1: map<string, string>, d2: map<string, string>, k: nat)
    requires k < |ls|
    requires forall i :: k <= i < |ls| ==> Value(d1, ls[i].1) == Value(d2, ls[i].1)
    ensures JoinFrom(ls, d1, k) == JoinFrom(ls, d2, k)
    decreases |ls| - k
  {
    if k + 1 < |ls| {
      JoinFromDependsOnKeys(ls, d1, d2, k + 1);
    }
  }

  /** The layout of a wizard post: the field lines, the remark block, the closing
      text and the link. */
  function Post(fields: string, block: string, closing: string, link: string): string {
    fields + (block + (closing + link))
  }

  /** A post made of field lines, a remark block, a closing text and the link
      ends with the link. */
  lemma PostEndsWithLink(r: string, fl: string, eb: string, closing: string, link: string)
    requires r == Post(fl, eb, closing, link)
    ensures |link| <= |r|
    ensures r[|r| - |link|..] == link
  {
    var cl := closing + link;
    SliceAfter(fl, eb + cl, |eb| + |closing|, |eb + cl|);
    SliceAfter(eb, cl, |closing|, |cl|);
    SliceAfter(closing, link, 0, |link|);
  }

  /** In such a post the closing text stands right before the link. */
  lemma PostClosingBeforeLink(r: string, fl: string, eb: string, closing: string, link: string)
    requires r == Post(fl, eb, closing, link)
    ensures var n := |r| - |link|;
      && |closing| <= n
      && r[n - |closing|..n] == closing
  {
    var cl := closing + link;
    SliceAfter(fl, eb + cl, |eb|, |eb| + |closing|);
    SliceAfter(eb, cl, 0, |closing|);
    SliceBefore(closing, link, 0, |closing|);
  }

  /** In such a post the remark block stands right after the field lines. */
  lemma PostBlockAt(r: string, fl: string, eb: string, closing: string, link: string)
    requires r == Post(fl, eb, closing, link)
    ensures |fl| + |eb| <= |r|
    ensures r[|fl|..|fl| + |eb|] == eb
  {
    SliceAfter(fl, eb + (closing + link), 0, |eb|);
    SliceBefore(eb, closing + link, 0, |eb|);
  }

  /** Without a remark block the closing text follows the field lines; if it does
      not start like a heading `h`, no such heading stands there. */
  lemma PostHeadingAbsent(r: string, fl: string, closing: string, link: string, h: string)
    requires r == Post(fl, "", closing, link)
    requires |closing| >= |h| > 2 && closing[2] != h[2]
    ensures |fl| + |h| <= |r|
    ensures r[|fl|..|fl| + |h|] != h
  {
    assert r[|fl| + 2] == closing[2];
    assert r[|fl|..|fl| + |h|][2] == r[|fl| + 2];
  }

  /** In field lines followed by any text, the value of line `i` sits at its
      offset. */
  lemma FieldValueAt(r: string, ls: seq<(string, string)>, data: map<string, string>, tail: string, i: nat)
    requires i < |ls| && r == JoinLines(ls, data) + tail
    ensures ValueOffset(ls, data, i) + |Value(data, ls[i].1)| <= |r|
    ensures r[ValueOffset(ls, data, i)..ValueOffset(ls, data, i) + |Value(data, ls[i].1)|] == Value(data, ls[i].1)
  {
    var o := ValueOffset(ls, data, i);
    ValueAtFrom(ls, data, 0, i);
    SliceBefore(JoinLines(ls, data), tail, o, o + |Value(data, ls[i].1)|);
  }

  /** ... and right before it stands the line's prefix. */
  lemma FieldPrefixAt(r: string, ls: seq<(string, string)>, data: map<string, string>, tail: string, i: nat)
    requires i < |ls| && r == JoinLines(ls, data) + tail
    ensures |ls[i].0| <= ValueOffset(ls, data, i) <= |r|
    ensures r[ValueOffset(ls, data, i) - |ls[i].0|..ValueOffset(ls, data, i)] == ls[i].0
  {
    var o := ValueOffset(ls, data, i);
    PrefixAtFrom(ls, data, 0, i);
    SliceBefore(JoinLines(ls, data), tail, o - |ls[i].0|, o);
  }
}
