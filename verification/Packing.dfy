/** How marshalled log lines become the strings that are posted.

    The packer (sumoclient.go, createChunks) cuts the list of lines into
    consecutive segments.  The first chunk writes a newline before every line;
    every later chunk starts with a bare line and writes a newline before each
    of the others.  This module gives that layout, the greedy cut, and what the
    greedy cut is worth: nothing is lost, sizes are bounded, and no other cut
    that obeys the same rules uses fewer chunks. */
module Packing {

  /** A marshalled item, one character a byte. */
  type Line = string

  /** Compact JSON is never empty and escapes control characters (section 7 of
      RFC 8259), so it holds no newline. */
  predicate Clean(lines: seq<Line>) {
    forall i :: 0 <= i < |lines| ==> lines[i] != "" && '\n' !in lines[i]
  }

  /** Every line with a newline in front of it. */
  function Prefixed(lines: seq<Line>): string {
    if lines == [] then "" else
    Prefixed(lines[..|lines| - 1]) + "\n" + lines[|lines| - 1]
  }

  /** The text of one segment; `first` says whether it is the first chunk. */
  function Chunk(first: bool, seg: seq<Line>): string {
    if first || seg == [] then Prefixed(seg) else seg[0] + Prefixed(seg[1..])
  }

  function Render(segs: seq<seq<Line>>): (chunks: seq<string>) {
    seq(|segs|, i requires 0 <= i < |segs| => Chunk(i == 0, segs[i]))
  }

  /** Bytes that the lines take with one newline each. */
  function Weight(lines: seq<Line>): nat {
    if lines == [] then 0 else Weight(lines[..|lines| - 1]) + |lines[|lines| - 1]| + 1
  }

  /** Length of a chunk, counted without building it (see ChunkLength). */
  function Size(first: bool, seg: seq<Line>): nat
    ensures seg != [] ==> Size(first, seg) + 1 >= Weight(seg)
  {
    Weight(seg) - if first || seg == [] then 0 else 1
  }

  /** One round of the packer's loop: the line joins the open segment unless the
      chunk with it would reach `max`; then it opens a segment of its own. */
  function Grow(segs: seq<seq<Line>>, line: Line, max: int): (grown: seq<seq<Line>>)
    requires segs != []
    ensures grown != []
  {
    var k := |segs| - 1;
    if Size(k == 0, segs[k]) + |line| + 1 >= max then segs + [[line]]
    else segs[..k] + [segs[k] + [line]]
  }

  function Segments(lines: seq<Line>, max: int): (segs: seq<seq<Line>>)
    ensures segs != []
  {
    if lines == [] then [[]] else
    Grow(Segments(lines[..|lines| - 1], max), lines[|lines| - 1], max)
  }

  function Pack(lines: seq<Line>, max: int): (chunks: seq<string>) {
    Render(Segments(lines, max))
  }

  // ---------------------------------------------------------------- rules

  function Flatten<T>(segs: seq<seq<T>>): seq<T> {
    if segs == [] then [] else segs[0] + Flatten(segs[1..])
  }

  /** What a cut has to respect: the first segment may be empty and otherwise
      stays below `max`; a later one is non-empty and stays below `max` unless
      it is a single line. */
  predicate LegalSegment(first: bool, seg: seq<Line>, max: int) {
    if first then seg == [] || Size(true, seg) < max
    else seg != [] && (|seg| == 1 || Size(false, seg) < max)
  }

  predicate Legal(first: bool, segs: seq<seq<Line>>, max: int) {
    forall i :: 0 <= i < |segs| ==> LegalSegment(first && i == 0, segs[i], max)
  }

  /** Every segment but the last is full: the next line would have reached `max`. */
  predicate Tight(first: bool, segs: seq<seq<Line>>, max: int) {
    forall i :: 0 <= i < |segs| - 1 ==> Closed(first, segs, i, max)
  }

  predicate Closed(first: bool, segs: seq<seq<Line>>, i: nat, max: int)
    requires i + 1 < |segs|
  {
    segs[i + 1] != [] && Size(first && i == 0, segs[i]) + |segs[i + 1][0]| + 1 >= max
  }

  lemma TightTail(first: bool, segs: seq<seq<Line>>, max: int)
    requires segs != [] && Tight(first, segs, max)
    ensures Tight(false, segs[1..], max)
  {
    forall i | 0 <= i < |segs[1..]| - 1 ensures Closed(false, segs[1..], i, max) {
      assert Closed(first, segs, i + 1, max);
    }
  }

  predicate IsCut(segs: seq<seq<Line>>, lines: seq<Line>, max: int) {
    segs != [] && Flatten(segs) == lines && Legal(true, segs, max)
  }

  // -------------------------------------------------------------- weights

  lemma {:induction false} WeightAppend(a: seq<Line>, b: seq<Line>)
    ensures Weight(a + b) == Weight(a) + Weight(b)
  {
    if b == [] {
      assert a + b == a;
    } else {
      WeightAppend(a, b[..|b| - 1]);
      assert (a + b)[..|a + b| - 1] == a + b[..|b| - 1];
    }
  }

  lemma {:induction false} PrefixedAppend(a: seq<Line>, b: seq<Line>)
    ensures Prefixed(a + b) == Prefixed(a) + Prefixed(b)
  {
    if b == [] {
      assert a + b == a;
    } else {
      PrefixedAppend(a, b[..|b| - 1]);
      assert (a + b)[..|a + b| - 1] == a + b[..|b| - 1];
    }
  }

  lemma Regrouped<T>(a: seq<T>, b: seq<T>, c: seq<T>)
    ensures (a + b) + c == a + (b + c)
  {}

  lemma PrefixedOne(line: Line)
    ensures Prefixed([line]) == "\n" + line
  {
    assert [line][..0] == [];
    assert Prefixed([line]) == "" + "\n" + line;
  }

  lemma PrefixedSnoc(before: string, lines: seq<Line>, line: Line)
    ensures before + Prefixed(lines) + ("\n" + line) == before + Prefixed(lines + [line])
  {
    PrefixedAppend(lines, [line]);
    PrefixedOne(line);
    Regrouped(before, Prefixed(lines), "\n" + line);
  }

  lemma PrefixedHead(seg: seq<Line>)
    requires seg != []
    ensures Prefixed(seg) == "\n" + Chunk(false, seg)
  {
    var rest := seg[1..];
    assert seg == [seg[0]] + rest;
    PrefixedAppend([seg[0]], rest);
    PrefixedOne(seg[0]);
    Regrouped("\n", seg[0], Prefixed(rest));
  }

  lemma {:induction false} PrefixedWeight(lines: seq<Line>)
    ensures |Prefixed(lines)| == Weight(lines)
  {
    if lines != [] { PrefixedWeight(lines[..|lines| - 1]); }
  }

  lemma ChunkLength(first: bool, seg: seq<Line>)
    ensures |Chunk(first, seg)| == Size(first, seg)
  {
    PrefixedWeight(seg);
    if seg != [] { PrefixedHead(seg); }
  }

  /** Appending a line to a segment writes a newline and the line. */
  lemma ChunkSnoc(first: bool, seg: seq<Line>, line: Line)
    requires first || seg != []
    ensures Chunk(first, seg + [line]) == Chunk(first, seg) + "\n" + line
    ensures Size(first, seg + [line]) == Size(first, seg) + |line| + 1
  {
    assert (seg + [line])[..|seg|] == seg;
    if !first {
      var rest := seg[1..];
      assert (seg + [line])[1..] == rest + [line];
      assert (rest + [line])[..|rest|] == rest;
      Regrouped(seg[0], Prefixed(rest) + "\n", line);
      Regrouped(seg[0], Prefixed(rest), "\n");
    }
  }

  lemma WeightOne(line: Line)
    ensures Weight([line]) == |line| + 1
  {
    assert [line][..0] == [];
  }

  lemma SubWeight(lines: seq<Line>, c: nat, a: nat, b: nat, d: nat)
    requires c <= a <= b <= d <= |lines|
    ensures Weight(lines[a..b]) <= Weight(lines[c..d])
  {
    assert lines[c..d] == lines[c..a] + lines[a..b] + lines[b..d];
    WeightAppend(lines[c..a] + lines[a..b], lines[b..d]);
    WeightAppend(lines[c..a], lines[a..b]);
  }

  lemma NothingMore<T>(a: seq<T>)
    ensures a + [] == a
  {
  }

  lemma TailOfSum<T>(a: seq<T>, b: seq<T>)
    requires a != []
    ensures (a + b)[0] == a[0] && (a + b)[1..] == a[1..] + b
  {
  }

  lemma OneFurther<T>(s: seq<T>, i: nat, e: nat)
    requires i <= e < |s|
    ensures s[i..e] + [s[e]] == s[i..e + 1]
  {
  }

  lemma FlattenHead<T>(segs: seq<seq<T>>)
    requires segs != []
    ensures Flatten(segs) == segs[0] + Flatten(segs[1..])
  {
  }

  lemma {:induction false} FlattenAppend<T>(a: seq<seq<T>>, b: seq<seq<T>>)
    ensures Flatten(a + b) == Flatten(a) + Flatten(b)
  {
    if a == [] {
      assert a + b == b;
    } else {
      FlattenHead(a);
      FlattenHead(a + b);
      hide Flatten;
      FlattenAppend(a[1..], b);
      TailOfSum(a, b);
      Regrouped(a[0], Flatten(a[1..]), Flatten(b));
    }
  }

  lemma FlattenOne<T>(seg: seq<T>)
    ensures Flatten([seg]) == seg
  {
    assert [seg][1..] == [];
  }

  // ------------------------------------------------------- the greedy cut

  lemma GrowFlatten(segs: seq<seq<Line>>, line: Line, max: int)
    requires segs != []
    ensures Flatten(Grow(segs, line, max)) == Flatten(segs) + [line]
  {
    var k := |segs| - 1;
    assert segs == segs[..k] + [segs[k]];
    FlattenAppend(segs[..k], [segs[k]]);
    FlattenOne(segs[k]);
    FlattenAppend(segs, [[line]]);
    FlattenOne([line]);
    FlattenAppend(segs[..k], [segs[k] + [line]]);
    FlattenOne(segs[k] + [line]);
    Regrouped(Flatten(segs[..k]), segs[k], [line]);
  }

  lemma GrowLegal(segs: seq<seq<Line>>, line: Line, max: int)
    requires segs != [] && Legal(true, segs, max)
    ensures Legal(true, Grow(segs, line, max), max)
  {
    var k := |segs| - 1;
    var grown := Grow(segs, line, max);
    WeightAppend(segs[k], [line]);
    WeightOne(line);
    forall i | 0 <= i < |grown| ensures LegalSegment(i == 0, grown[i], max) {
      assert LegalSegment(k == 0, segs[k], max);
      if i < |segs| { assert LegalSegment(i == 0, segs[i], max); }
    }
  }

  lemma GrowTight(segs: seq<seq<Line>>, line: Line, max: int)
    requires segs != [] && Legal(true, segs, max) && Tight(true, segs, max)
    ensures Tight(true, Grow(segs, line, max), max)
  {
    var k := |segs| - 1;
    var grown := Grow(segs, line, max);
    assert LegalSegment(k == 0, segs[k], max);
    forall i | 0 <= i < |grown| - 1 ensures Closed(true, grown, i, max) {
      if i < k { assert Closed(true, segs, i, max); }
    }
  }

  /** What one round does to the text: it closes the open chunk and starts a new
      one with the bare line, or appends a newline and the line to it. */
  lemma GrowRender(segs: seq<seq<Line>>, line: Line, max: int)
    requires segs != [] && Legal(true, segs, max)
    ensures var k := |segs| - 1;
            var old_, new_ := Render(segs), Render(Grow(segs, line, max));
            && |old_[k]| == Size(k == 0, segs[k])
            && new_ == if |old_[k]| + |line| + 1 >= max then old_ + [line]
                       else old_[..k] + [old_[k] + "\n" + line]
  {
    var k := |segs| - 1;
    assert LegalSegment(k == 0, segs[k], max);
    ChunkLength(k == 0, segs[k]);
    if Size(k == 0, segs[k]) + |line| + 1 >= max {
      assert [line][1..] == [];
      assert Chunk(false, [line]) == line;
      assert Render(segs + [[line]]) == Render(segs) + [line];
    } else {
      ChunkSnoc(k == 0, segs[k], line);
      assert Render(segs[..k] + [segs[k] + [line]]) == Render(segs)[..k] + [Chunk(k == 0, segs[k] + [line])];
    }
  }

  /** Nothing is lost or reordered, every chunk obeys the size rule, and every
      closed chunk is full. */
  lemma {:induction false} SegmentsCut(lines: seq<Line>, max: int)
    ensures IsCut(Segments(lines, max), lines, max)
    ensures Tight(true, Segments(lines, max), max)
  {
    if lines == [] {
      FlattenOne<Line>([]);
    } else {
      var init, line := lines[..|lines| - 1], lines[|lines| - 1];
      SegmentsCut(init, max);
      GrowFlatten(Segments(init, max), line, max);
      GrowLegal(Segments(init, max), line, max);
      GrowTight(Segments(init, max), line, max);
      assert lines == init + [line];
    }
  }

  /** The heart of optimality: a full cut that has covered at least as much as
      a legal one still needs no more segments than it. */
  lemma {:induction false} StaysAhead(lines: seq<Line>, i: nat, j: nat,
                                      full: seq<seq<Line>>, other: seq<seq<Line>>, first: bool, max: int)
    requires j <= i <= |lines|
    requires Flatten(full) == lines[i..] && Flatten(other) == lines[j..]
    requires Legal(first, full, max) && Tight(first, full, max) && Legal(first, other, max)
    requires first ==> other != []
    ensures |full| <= |other|
    decreases |full|
  {
    if full != [] {
      if other == [] {
        LegalCovers(full, max);
        assert false;
      }
      var i', j' := i + |full[0]|, j + |other[0]|;
      FlattenStep(lines, i, full);
      FlattenStep(lines, j, other);
      assert LegalSegment(first, full[0], max) && LegalSegment(first, other[0], max);
      Overrun(lines, i, j, full, other, first, max);
      TightTail(first, full, max);
      StaysAhead(lines, i', j', full[1..], other[1..], false, max);
    }
  }

  /** Later segments are never empty, so they cover something. */
  lemma LegalCovers(segs: seq<seq<Line>>, max: int)
    requires segs != [] && Legal(false, segs, max)
    ensures Flatten(segs) != []
  {
    assert LegalSegment(false, segs[0], max);
  }

  lemma FlattenStep(lines: seq<Line>, i: nat, segs: seq<seq<Line>>)
    requires i <= |lines| && segs != [] && Flatten(segs) == lines[i..]
    ensures i + |segs[0]| <= |lines|
    ensures segs[0] == lines[i..i + |segs[0]|]
    ensures Flatten(segs[1..]) == lines[i + |segs[0]|..]
  {
    assert lines[i..] == segs[0] + Flatten(segs[1..]);
    assert lines[i..][..|segs[0]|] == segs[0];
    assert lines[i..][|segs[0]|..] == Flatten(segs[1..]);
  }

  /** A legal segment has no room for a full one and the line after it. */
  lemma NoRoom(first: bool, full: seq<Line>, next: Line, seg: seq<Line>, max: int)
    requires LegalSegment(first, full, max) && LegalSegment(first, seg, max)
    requires Size(first, full) + |next| + 1 >= max
    requires |full| < |seg|
    ensures Weight(seg) < Weight(full + [next])
  {
    WeightAppend(full, [next]);
    WeightOne(next);
  }

  lemma NextLine(lines: seq<Line>, i: nat, full: seq<seq<Line>>, first: bool, max: int)
    requires i <= |lines| && full != [] && Flatten(full) == lines[i..]
    requires i + |full[0]| < |lines| && Tight(first, full, max)
    ensures var next := lines[i + |full[0]|];
            lines[i..i + |full[0]| + 1] == full[0] + [next] &&
            Size(first, full[0]) + |next| + 1 >= max
  {
    FlattenStep(lines, i, full);
    var e := i + |full[0]|;
    assert full[1..] != [];
    FlattenStep(lines, e, full[1..]);
    assert Closed(first, full, 0, max);
    assert full[1][0] == lines[e];
    OneFurther(lines, i, e);
  }

  /** A legal segment cannot reach past the end of a full one that started no
      earlier. */
  lemma Overrun(lines: seq<Line>, i: nat, j: nat,
                full: seq<seq<Line>>, other: seq<seq<Line>>, first: bool, max: int)
    requires j <= i <= |lines| && full != [] && other != []
    requires Flatten(full) == lines[i..] && Flatten(other) == lines[j..]
    requires LegalSegment(first, full[0], max) && Tight(first, full, max)
    requires LegalSegment(first, other[0], max)
    ensures j + |other[0]| <= i + |full[0]|
  {
    hide Flatten, Weight, Size, Tight;
    FlattenStep(lines, i, full);
    FlattenStep(lines, j, other);
    var e, d := i + |full[0]|, j + |other[0]|;
    if e < d {
      NextLine(lines, i, full, first, max);
      NoRoom(first, full[0], lines[e], other[0], max);
      SubWeight(lines, j, i, e + 1, d);
    }
  }

  /** Greedy packing is optimal: no cut that obeys the same rules has fewer
      chunks. */
  lemma PackOptimal(lines: seq<Line>, max: int, other: seq<seq<Line>>)
    requires IsCut(other, lines, max)
    ensures |Pack(lines, max)| <= |other|
  {
    SegmentsCut(lines, max);
    assert lines[0..] == lines;
    StaysAhead(lines, 0, 0, Segments(lines, max), other, true, max);
  }

  /** Legality and fullness leave no choice: the packer's cut is the only one
      that has both. */
  lemma {:induction false} FullCutUnique(a: seq<seq<Line>>, b: seq<seq<Line>>, first: bool, max: int)
    requires Flatten(a) == Flatten(b)
    requires first ==> a != [] && b != []
    requires Legal(first, a, max) && Tight(first, a, max)
    requires Legal(first, b, max) && Tight(first, b, max)
    ensures a == b
    decreases |a|
  {
    var lines := Flatten(a);
    assert lines[0..] == lines;
    if a == [] {
      if b != [] { LegalCovers(b, max); }
    } else if b == [] {
      LegalCovers(a, max);
    } else {
      FlattenStep(lines, 0, a);
      FlattenStep(lines, 0, b);
      assert LegalSegment(first, a[0], max) && LegalSegment(first, b[0], max);
      Overrun(lines, 0, 0, a, b, first, max);
      Overrun(lines, 0, 0, b, a, first, max);
      TightTail(first, a, max);
      TightTail(first, b, max);
      FullCutUnique(a[1..], b[1..], false, max);
    }
  }

  /** Size safety: a chunk is shorter than `max` or is one line of at least
      that length, alone. */
  lemma PackSizes(lines: seq<Line>, max: int, i: nat)
    requires 0 < max && i < |Pack(lines, max)|
    ensures |Pack(lines, max)[i]| < max ||
            (Segments(lines, max)[i] == [Pack(lines, max)[i]] && Pack(lines, max)[i] in lines)
  {
    SegmentsCut(lines, max);
    var segs := Segments(lines, max);
    var seg := segs[i];
    assert LegalSegment(i == 0, seg, max);
    ChunkLength(i == 0, seg);
    if i > 0 && |seg| == 1 {
      assert seg[1..] == [];
      assert Chunk(false, seg) == seg[0];
      InFlatten(segs, i, 0);
    }
  }

  lemma {:induction false} InFlatten<T>(segs: seq<seq<T>>, i: nat, k: nat)
    requires i < |segs| && k < |segs[i]|
    ensures segs[i][k] in Flatten(segs)
  {
    if i > 0 { InFlatten(segs[1..], i - 1, k); }
  }

  // ------------------------------------------------------------ counting

  /** A non-empty segment weighs its first line, a newline and the rest. */
  lemma HeadWeight(seg: seq<Line>)
    requires seg != []
    ensures Weight(seg) == |seg[0]| + 1 + Weight(seg[1..])
  {
    assert seg == [seg[0]] + seg[1..];
    WeightAppend([seg[0]], seg[1..]);
    WeightOne(seg[0]);
  }

  lemma CountLaterStep(n: int, max: int, w: int, head: int, next: int, t: int)
    requires (n - 1) * (max + 1) + next + 2 <= 2 * t
    requires head + 1 <= w && max <= w + next
    ensures n * (max + 1) + head + 2 <= 2 * (w + t)
  {
    assert n * (max + 1) == (n - 1) * (max + 1) + (max + 1);
  }

  /** Later segments: n - 1 closed chunks weigh at least (n - 1) * (max + 1)
      when each is charged with the first line of its successor. */
  lemma {:induction false} CountLater(segs: seq<seq<Line>>, max: int)
    requires segs != [] && Legal(false, segs, max) && Tight(false, segs, max)
    ensures segs[0] != []
    ensures (|segs| - 1) * (max + 1) + |segs[0][0]| + 2 <= 2 * Weight(Flatten(segs))
  {
    assert LegalSegment(false, segs[0], max);
    var rest := segs[1..];
    HeadWeight(segs[0]);
    WeightAppend(segs[0], Flatten(rest));
    if rest != [] {
      TightTail(false, segs, max);
      CountLater(rest, max);
      assert Closed(false, segs, 0, max);
      CountLaterStep(|segs| - 1, max, Weight(segs[0]), |segs[0][0]|, |rest[0][0]|, Weight(Flatten(rest)));
    }
  }

  lemma CountStep(n: int, max: int, w: int, f: int, t: int)
    requires (n - 1) * (max + 1) + f + 2 <= 2 * t
    requires 0 <= w && max <= w + f + 1
    ensures n * (max + 1) <= 2 * (w + t)
  {
    assert n * (max + 1) == (n - 1) * (max + 1) + (max + 1);
  }

  /** Chunk count bound: with n chunks and B bytes counted with their newlines,
      (n - 1) * (max + 1) <= 2 * B. */
  lemma PackCount(lines: seq<Line>, max: int)
    ensures (|Pack(lines, max)| - 1) * (max + 1) <= 2 * Weight(lines)
  {
    SegmentsCut(lines, max);
    var segs := Segments(lines, max);
    if |segs| > 1 {
      TightTail(true, segs, max);
      CountLater(segs[1..], max);
      assert Closed(true, segs, 0, max);
      WeightAppend(segs[0], Flatten(segs[1..]));
      CountStep(|segs| - 1, max, Weight(segs[0]), |segs[1][0]|, Weight(Flatten(segs[1..])));
    }
  }

  // ---------------------------------------------------------- round trips

  function Join(chunks: seq<string>): string
    requires chunks != []
  {
    if |chunks| == 1 then chunks[0] else
    Join(chunks[..|chunks| - 1]) + "\n" + chunks[|chunks| - 1]
  }

  lemma {:induction false} JoinRender(segs: seq<seq<Line>>)
    requires segs != [] && forall i :: 1 <= i < |segs| ==> segs[i] != []
    ensures Join(Render(segs)) == Prefixed(Flatten(segs))
  {
    var n := |segs| - 1;
    assert segs == segs[..n] + [segs[n]];
    FlattenAppend(segs[..n], [segs[n]]);
    FlattenOne(segs[n]);
    if n > 0 {
      JoinRender(segs[..n]);
      assert Render(segs)[..n] == Render(segs[..n]);
      PrefixedAppend(Flatten(segs[..n]), segs[n]);
      PrefixedHead(segs[n]);
    }
  }

  /** Without lines there is still one chunk, and it is empty. */
  lemma PackNothing(max: int)
    ensures Pack([], max) == [""]
  {
    assert Segments([], max) == [[]];
  }

  /** The chunks, joined with newlines, are the one string that the failover
      path builds for the same lines. */
  lemma PackJoin(lines: seq<Line>, max: int)
    ensures Pack(lines, max) != [] && Join(Pack(lines, max)) == Prefixed(lines)
  {
    SegmentsCut(lines, max);
    var segs := Segments(lines, max);
    forall i | 1 <= i < |segs| ensures segs[i] != [] {
      assert LegalSegment(false, segs[i], max);
    }
    JoinRender(segs);
  }

  /** The pieces of a string between its separators. */
  function Split(s: string, sep: char): (parts: seq<string>)
    ensures parts != []
  {
    if s == "" then [""] else
    var rest := Split(s[1..], sep);
    if s[0] == sep then [""] + rest else [[s[0]] + rest[0]] + rest[1..]
  }

  function NonEmpty(parts: seq<string>): seq<string> {
    if parts == [] then [] else
    NonEmpty(parts[..|parts| - 1]) + (if parts[|parts| - 1] == "" then [] else [parts[|parts| - 1]])
  }

  /** What a reader of newline separated text finds in a string. */
  function Records(s: string): seq<string> { NonEmpty(Split(s, '\n')) }

  lemma {:induction false} SplitPlain(s: string, sep: char)
    requires sep !in s
    ensures Split(s, sep) == [s]
  {
    if s != "" {
      SplitPlain(s[1..], sep);
      assert s == [s[0]] + s[1..];
    }
  }

  lemma {:induction false} SplitAt(a: string, sep: char, b: string)
    ensures Split(a + [sep] + b, sep) == Split(a, sep) + Split(b, sep)
  {
    var s := a + [sep] + b;
    if a == "" {
      assert s[1..] == b;
    } else {
      assert s[1..] == a[1..] + [sep] + b;
      SplitAt(a[1..], sep, b);
    }
  }

  lemma {:induction false} NonEmptyAppend(a: seq<string>, b: seq<string>)
    ensures NonEmpty(a + b) == NonEmpty(a) + NonEmpty(b)
  {
    if b == [] {
      assert a + b == a;
    } else {
      NonEmptyAppend(a, b[..|b| - 1]);
      assert (a + b)[..|a + b| - 1] == a + b[..|b| - 1];
    }
  }

  lemma NonEmptyOne(s: string)
    ensures NonEmpty([s]) == if s == "" then [] else [s]
  {
    assert [s][..0] == [];
  }

  lemma RecordsSnoc(front: string, line: Line)
    requires line != "" && '\n' !in line
    ensures Records(front + "\n" + line) == Records(front) + [line]
  {
    SplitAt(front, '\n', line);
    SplitPlain(line, '\n');
    hide Split, NonEmpty;
    assert front + "\n" + line == front + ['\n'] + line;
    NonEmptyAppend(Split(front, '\n'), [line]);
    NonEmptyOne(line);
  }

  lemma {:induction false} PrefixedRecords(lines: seq<Line>)
    requires Clean(lines)
    ensures Records(Prefixed(lines)) == lines
  {
    if lines == [] {
      NonEmptyOne("");
    } else {
      hide Records;
      PrefixedRecords(lines[..|lines| - 1]);
      RecordsSnoc(Prefixed(lines[..|lines| - 1]), lines[|lines| - 1]);
    }
  }

  lemma NewlineFirst(s: string)
    ensures Records("\n" + s) == Records(s)
  {
    hide Split, NonEmpty;
    assert "" + ['\n'] + s == "\n" + s;
    SplitAt("", '\n', s);
    SplitPlain("", '\n');
    NonEmptyAppend([""], Split(s, '\n'));
    NonEmptyOne("");
  }

  lemma ChunkRecords(first: bool, seg: seq<Line>)
    requires Clean(seg)
    ensures Records(Chunk(first, seg)) == seg
  {
    PrefixedRecords(seg);
    if !first && seg != [] {
      hide Records, Prefixed, Chunk;
      PrefixedHead(seg);
      NewlineFirst(Chunk(false, seg));
    }
  }

  function AllRecords(chunks: seq<string>): seq<string> {
    Flatten(seq(|chunks|, i requires 0 <= i < |chunks| => Records(chunks[i])))
  }

  /** Splitting the chunks on newlines and dropping the empty pieces gives back
      the marshalled lines, in order, each once. */
  lemma PackRecords(lines: seq<Line>, max: int)
    requires Clean(lines)
    ensures AllRecords(Pack(lines, max)) == lines
  {
    SegmentsCut(lines, max);
    var segs := Segments(lines, max);
    var chunks := Pack(lines, max);
    forall i | 0 <= i < |chunks| ensures Records(chunks[i]) == segs[i] {
      forall k | 0 <= k < |segs[i]| ensures segs[i][k] in lines { InFlatten(segs, i, k); }
      ChunkRecords(i == 0, segs[i]);
    }
    var back := seq(|chunks|, i requires 0 <= i < |chunks| => Records(chunks[i]));
    assert back == segs;
  }

  // ------------------------------------------------------------- batching

  /** The chunks that the messages take when each is packed on its own. */
  function Separate(messages: seq<seq<Line>>, max: int): nat {
    if messages == [] then 0 else
    Separate(messages[..|messages| - 1], max) + |Pack(messages[|messages| - 1], max)|
  }

  /** Two cuts put side by side are a cut: the second one's first segment is
      dropped when empty and otherwise loses its leading newline. */
  lemma CutsConcatenate(a: seq<seq<Line>>, b: seq<seq<Line>>, x: seq<Line>, y: seq<Line>, max: int)
    returns (both: seq<seq<Line>>)
    requires IsCut(a, x, max) && IsCut(b, y, max)
    ensures IsCut(both, x + y, max) && |both| <= |a| + |b|
  {
    var tail := if b[0] == [] then b[1..] else b;
    both := a + tail;
    FlattenAppend(a, tail);
    assert Flatten(tail) == y;
    forall i | 0 <= i < |both| ensures LegalSegment(i == 0, both[i], max) {
      if i < |a| {
        assert LegalSegment(i == 0, a[i], max);
      } else {
        var k := i - |a| + |b| - |tail|;
        assert both[i] == b[k];
        assert LegalSegment(k == 0, b[k], max);
      }
    }
  }

  /** Packing a batch of messages together never takes more chunks than packing
      them one by one. */
  lemma {:induction false} BatchingSaves(messages: seq<seq<Line>>, max: int)
    requires messages != []
    ensures |Pack(Flatten(messages), max)| <= Separate(messages, max)
  {
    var n := |messages| - 1;
    assert messages == messages[..n] + [messages[n]];
    FlattenAppend(messages[..n], [messages[n]]);
    FlattenOne(messages[n]);
    if n == 0 {
      assert Separate(messages[..0], max) == 0;
    } else {
      BatchingSaves(messages[..n], max);
      SegmentsCut(Flatten(messages[..n]), max);
      SegmentsCut(messages[n], max);
      var both := CutsConcatenate(Segments(Flatten(messages[..n]), max), Segments(messages[n], max),
                                  Flatten(messages[..n]), messages[n], max);
      PackOptimal(Flatten(messages), max, both);
    }
  }
}
