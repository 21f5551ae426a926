/** Heading-aware chunking, `chunk_markdown` of `rag/chunking.py`. */
module Chunking {
  import opened Basics
  import P = Packing

  /** A line by what the splitter looks at: a fence marker, something shaped like a heading of level
      1 to 6, or anything else. */
  datatype Line = Fence(text: string) | Heading(text: string, level: nat, title: string) | Plain(text: string)

  predicate LinesOk(lines: seq<Line>) {
    forall k :: 0 <= k < |lines| && lines[k].Heading? ==> 1 <= lines[k].level <= 6
  }

  function InFence(lines: seq<Line>, n: nat): bool
    requires n <= |lines|
  {
    n > 0 && (InFence(lines, n - 1) != lines[n - 1].Fence?)
  }

  function FenceLines(lines: seq<Line>, n: nat): set<nat>
    requires n <= |lines|
  {
    set k: nat | k < n && lines[k].Fence?
  }

  /** A line is inside a fence exactly if an odd number of fence lines stand before it. */
  lemma {:induction false} InFenceExactly(lines: seq<Line>, n: nat)
    requires n <= |lines|
    ensures InFence(lines, n) <==> |FenceLines(lines, n)| % 2 == 1
  {
    if n == 0 {
      assert FenceLines(lines, 0) == {};
    } else {
      InFenceExactly(lines, n - 1);
      var before := FenceLines(lines, n - 1);
      assert FenceLines(lines, n) == if lines[n - 1].Fence? then before + {n - 1} else before;
    }
  }

  /** Inside a fence a leading `#` is a comment. */
  predicate IsHeading(lines: seq<Line>, k: nat)
    requires k < |lines|
  {
    lines[k].Heading? && !InFence(lines, k)
  }

  // ---------------------------------------------------------------- the stack and the true path

  function Pushed(stack: seq<string>, level: nat, title: string): seq<string>
    requires level >= 1
  {
    stack[..Min(level - 1, |stack|)] + [title]
  }

  /** `heading_stack` after `n` lines. */
  function Stack(lines: seq<Line>, n: nat): seq<string>
    requires n <= |lines| && LinesOk(lines)
  {
    if n == 0 then [] else
    var s := Stack(lines, n - 1);
    if IsHeading(lines, n - 1) then Pushed(s, lines[n - 1].level, lines[n - 1].title) else s
  }

  datatype Open = Open(level: nat, title: string)

  /** How many of the open sections enclose a heading of this level. */
  function Enclosing(trail: seq<Open>, level: nat): (n: nat)
    ensures n <= |trail| && (forall i :: 0 <= i < n ==> trail[i].level < level)
            && (n < |trail| ==> trail[n].level >= level)
    decreases |trail|
  {
    if trail == [] then 0 else
    var n := Enclosing(trail[..|trail| - 1], level);
    if n == |trail| - 1 && trail[n].level < level then |trail| else n
  }

  /** The open sections after `n` lines: a heading closes every section that does not enclose it. */
  function Trail(lines: seq<Line>, n: nat): seq<Open>
    requires n <= |lines|
  {
    if n == 0 then [] else
    var t := Trail(lines, n - 1);
    if !IsHeading(lines, n - 1) then t
    else t[..Enclosing(t, lines[n - 1].level)] + [Open(lines[n - 1].level, lines[n - 1].title)]
  }

  function Titles(trail: seq<Open>): (r: seq<string>)
    ensures |r| == |trail| && forall i :: 0 <= i < |r| ==> r[i] == trail[i].title
  {
    seq(|trail|, i requires 0 <= i < |trail| => trail[i].title)
  }

  /** The stack is cut where the sections close. */
  predicate CutsRight(lines: seq<Line>, k: nat)
    requires k < |lines| && LinesOk(lines)
  {
    IsHeading(lines, k) ==>
      var (t, level) := (Trail(lines, k), lines[k].level);
      Enclosing(t, level) == Min(level - 1, |t|)
  }

  lemma HeadingStep(lines: seq<Line>, k: nat)
    requires k < |lines| && LinesOk(lines) && Stack(lines, k) == Titles(Trail(lines, k))
    ensures Stack(lines, k + 1) == Titles(Trail(lines, k + 1)) <==> CutsRight(lines, k)
  {
    if IsHeading(lines, k) {
      var (t, level) := (Trail(lines, k), lines[k].level);
      var (a, b) := (Stack(lines, k + 1), Titles(Trail(lines, k + 1)));
      assert |a| == Min(level - 1, |t|) + 1 && |b| == Enclosing(t, level) + 1;
      if CutsRight(lines, k) {
        assert forall i :: 0 <= i < |a| ==> a[i] == b[i];
      }
    }
  }

  predicate Agrees(lines: seq<Line>, k: nat)
    requires k <= |lines| && LinesOk(lines)
  {
    Stack(lines, k) == Titles(Trail(lines, k))
  }

  /** The heading stack is the true path of open sections throughout exactly if every heading cuts
      the stack where the sections close. */
  lemma {:induction false} StackIsPathExactly(lines: seq<Line>, n: nat)
    requires n <= |lines| && LinesOk(lines)
    ensures (forall k :: 0 <= k <= n ==> Agrees(lines, k)) <==> (forall k :: 0 <= k < n ==> CutsRight(lines, k))
  {
    if n > 0 {
      StackIsPathExactly(lines, n - 1);
      if Agrees(lines, n - 1) {
        HeadingStep(lines, n - 1);
      }
      UpTo(lines, n);
    } else {
      assert Agrees(lines, 0);
    }
  }

  lemma UpTo(lines: seq<Line>, n: nat)
    requires 0 < n <= |lines| && LinesOk(lines)
    requires (forall k :: 0 <= k <= n - 1 ==> Agrees(lines, k))
             <==> (forall k :: 0 <= k < n - 1 ==> CutsRight(lines, k))
    requires Agrees(lines, n - 1) ==> (Agrees(lines, n) <==> CutsRight(lines, n - 1))
    ensures (forall k :: 0 <= k <= n ==> Agrees(lines, k)) <==> (forall k :: 0 <= k < n ==> CutsRight(lines, k))
  {
    hide Agrees, CutsRight;
  }

  /** The level of the last heading, or 0. */
  function LastLevel(lines: seq<Line>, n: nat): nat
    requires n <= |lines|
  {
    if n == 0 then 0 else if IsHeading(lines, n - 1) then lines[n - 1].level else LastLevel(lines, n - 1)
  }

  /** Headings start at level 1 and never skip a level on the way down. */
  predicate NeverSkips(lines: seq<Line>, n: nat)
    requires n <= |lines|
  {
    forall k :: 0 <= k < n && IsHeading(lines, k) ==> 1 <= lines[k].level <= LastLevel(lines, k) + 1
  }

  lemma {:induction false} ProperTrail(lines: seq<Line>, n: nat)
    requires n <= |lines| && NeverSkips(lines, n)
    ensures |Trail(lines, n)| == LastLevel(lines, n)
    ensures forall i :: 0 <= i < |Trail(lines, n)| ==> Trail(lines, n)[i].level == i + 1
  {
    if n > 0 {
      ProperTrail(lines, n - 1);
      if IsHeading(lines, n - 1) {
        EnclosingProper(Trail(lines, n - 1), lines[n - 1].level);
      }
    }
  }

  lemma EnclosingProper(t: seq<Open>, level: nat)
    requires (forall i :: 0 <= i < |t| ==> t[i].level == i + 1) && 1 <= level <= |t| + 1
    ensures Enclosing(t, level) == level - 1
  {
    hide Enclosing;
    var n := Enclosing(t, level);
    assert n > 0 ==> t[n - 1].level == n;
  }

  /** Proper nesting is enough for every section path to be true. */
  lemma ProperNestingIsTrue(lines: seq<Line>, k: nat)
    requires k <= |lines| && LinesOk(lines) && NeverSkips(lines, |lines|)
    ensures Stack(lines, k) == Titles(Trail(lines, k))
  {
    ProperCuts(lines);
    StackIsPathExactly(lines, |lines|);
    assert Agrees(lines, k);
  }

  lemma ProperCuts(lines: seq<Line>)
    requires LinesOk(lines) && NeverSkips(lines, |lines|)
    ensures forall j :: 0 <= j < |lines| ==> CutsRight(lines, j)
  {
    forall j | 0 <= j < |lines| ensures CutsRight(lines, j) {
      ProperTrail(lines, j);
      if IsHeading(lines, j) {
        EnclosingProper(Trail(lines, j), lines[j].level);
      }
    }
  }

  /** Without it the path may name a sibling as an ancestor. */
  lemma TwoSiblingsBelowNothing(a: string, b: string)
    ensures var lines := [Heading("## " + a, 2, a), Heading("## " + b, 2, b)];
            Titles(Trail(lines, 2)) == [b] && Stack(lines, 2) == [a, b]
  {
    var lines := [Heading("## " + a, 2, a), Heading("## " + b, 2, b)];
    assert !InFence(lines, 0) && !InFence(lines, 1);
    assert Trail(lines, 0) == [] && Trail(lines, 1) == [Open(2, a)];
    assert Stack(lines, 0) == [] && Stack(lines, 1) == [a];
    assert Enclosing(Trail(lines, 1), 2) == 0;
  }

  // ---------------------------------------------------------------- blocks between headings

  /** The text lines from `start` up to `stop`, filed under a section path. */
  datatype Block = Block(path: seq<string>, start: nat, stop: nat)

  /** Where the open buffer began. */
  function OpenFrom(lines: seq<Line>, n: nat): (r: nat)
    requires n <= |lines|
    ensures r <= n
  {
    if n == 0 then 0 else if IsHeading(lines, n - 1) then n else OpenFrom(lines, n - 1)
  }

  /** The blocks flushed while reading `n` lines. */
  function Flushed(lines: seq<Line>, n: nat): seq<Block>
    requires n <= |lines| && LinesOk(lines)
  {
    if n == 0 then [] else
    var blocks := Flushed(lines, n - 1);
    if IsHeading(lines, n - 1) then blocks + [Block(Stack(lines, n - 1), OpenFrom(lines, n - 1), n - 1)] else blocks
  }

  function Blocks(lines: seq<Line>): seq<Block>
    requires LinesOk(lines)
  {
    var n := |lines|;
    Flushed(lines, n) + [Block(Stack(lines, n), OpenFrom(lines, n), n)]
  }

  predicate BlockOk(lines: seq<Line>, b: Block)
    requires LinesOk(lines)
  {
    && b.start <= b.stop <= |lines|
    && (forall k :: b.start <= k < b.stop ==> !IsHeading(lines, k))
    && (forall k :: b.start <= k <= b.stop ==> Stack(lines, k) == b.path && Trail(lines, k) == Trail(lines, b.start))
  }

  lemma {:induction false} OpenBlockOk(lines: seq<Line>, n: nat)
    requires n <= |lines| && LinesOk(lines)
    ensures BlockOk(lines, Block(Stack(lines, n), OpenFrom(lines, n), n))
  {
    if n > 0 && !IsHeading(lines, n - 1) {
      OpenBlockOk(lines, n - 1);
    }
  }

  lemma {:induction false} FlushedOk(lines: seq<Line>, n: nat)
    requires n <= |lines| && LinesOk(lines)
    ensures forall i :: 0 <= i < |Flushed(lines, n)| ==> BlockOk(lines, Flushed(lines, n)[i])
  {
    hide BlockOk;
    if n > 0 {
      FlushedOk(lines, n - 1);
      OpenBlockOk(lines, n - 1);
    }
  }

  /** The flushed blocks are in order and end before the open buffer, each at its heading. */
  lemma {:induction false} FlushedInOrder(lines: seq<Line>, n: nat)
    requires n <= |lines| && LinesOk(lines)
    ensures forall i :: 0 <= i < |Flushed(lines, n)| ==>
              var b := Flushed(lines, n)[i]; b.start <= b.stop < OpenFrom(lines, n) && IsHeading(lines, b.stop)
    ensures forall i, j :: 0 <= i < j < |Flushed(lines, n)| ==> Flushed(lines, n)[i].stop < Flushed(lines, n)[j].start
  {
    hide IsHeading;
    if n > 0 {
      FlushedInOrder(lines, n - 1);
    }
  }

  predicate InBlock(b: Block, k: nat) {
    b.start <= k < b.stop
  }

  /** Every line that is not a heading lies in exactly one block, and the blocks come in the order of
      their lines. */
  lemma LineHasBlock(lines: seq<Line>, k: nat) returns (i: nat)
    requires k < |lines| && LinesOk(lines) && !IsHeading(lines, k)
    ensures i < |Blocks(lines)| && InBlock(Blocks(lines)[i], k)
    ensures forall j :: 0 <= j < |Blocks(lines)| && j != i ==> !InBlock(Blocks(lines)[j], k)
    ensures forall j :: 0 <= j < i ==> Blocks(lines)[j].stop < Blocks(lines)[i].start
    ensures forall j :: i < j < |Blocks(lines)| ==> Blocks(lines)[i].stop < Blocks(lines)[j].start
  {
    i := LineFlushed(lines, |lines|, k);
    FlushedInOrder(lines, |lines|);
    hide IsHeading;
  }

  lemma {:induction false} LineFlushed(lines: seq<Line>, n: nat, k: nat) returns (i: nat)
    requires k < n <= |lines| && LinesOk(lines) && !IsHeading(lines, k)
    ensures i <= |Flushed(lines, n)|
    ensures i < |Flushed(lines, n)| ==> InBlock(Flushed(lines, n)[i], k)
    ensures i == |Flushed(lines, n)| ==> OpenFrom(lines, n) <= k
  {
    if k == n - 1 {
      i := |Flushed(lines, n)|;
      OpenBlockOk(lines, n - 1);
    } else {
      i := LineFlushed(lines, n - 1, k);
    }
  }

  /** The block is filed under the true path at each of its lines and at the heading that ends it. */
  ghost predicate FiledTruly(lines: seq<Line>, b: Block) {
    forall k :: b.start <= k <= b.stop ==> k <= |lines| && b.path == Titles(Trail(lines, k))
  }

  /** Every block is filed truly exactly if every heading cuts the stack where the sections close. */
  lemma BlocksFiledTruly(lines: seq<Line>)
    requires LinesOk(lines)
    ensures (forall i :: 0 <= i < |Blocks(lines)| ==> FiledTruly(lines, Blocks(lines)[i]))
       <==> (forall j :: 0 <= j < |lines| ==> CutsRight(lines, j))
  {
    StackIsPathExactly(lines, |lines|);
    hide CutsRight;
    forall i | 0 <= i < |Blocks(lines)| && forall k :: 0 <= k <= |lines| ==> Agrees(lines, k)
      ensures FiledTruly(lines, Blocks(lines)[i])
    {
      FlushedOk(lines, |lines|);
      OpenBlockOk(lines, |lines|);
      var b := Blocks(lines)[i];
      assert BlockOk(lines, b);
      forall k | b.start <= k <= b.stop ensures b.path == Titles(Trail(lines, k)) {
        assert Agrees(lines, k);
      }
    }
    forall k | 0 <= k <= |lines| && forall i :: 0 <= i < |Blocks(lines)| ==> FiledTruly(lines, Blocks(lines)[i])
      ensures Agrees(lines, k)
    {
      var i := PlaceHasBlock(lines, |lines|, k);
      assert FiledTruly(lines, Blocks(lines)[i]);
      FlushedOk(lines, |lines|);
      OpenBlockOk(lines, |lines|);
      assert BlockOk(lines, Blocks(lines)[i]);
    }
  }

  /** Every place between lines lies in a block or at its end. */
  lemma {:induction false} PlaceHasBlock(lines: seq<Line>, n: nat, k: nat) returns (i: nat)
    requires k <= n <= |lines| && LinesOk(lines)
    ensures i <= |Flushed(lines, n)|
    ensures i < |Flushed(lines, n)| ==> Flushed(lines, n)[i].start <= k <= Flushed(lines, n)[i].stop
    ensures i == |Flushed(lines, n)| ==> OpenFrom(lines, n) <= k
  {
    if k == n {
      i := |Flushed(lines, n)|;
    } else {
      i := PlaceHasBlock(lines, n - 1, k);
    }
  }

  // ---------------------------------------------------------------- the loop

  datatype Chunk = Chunk(path: seq<string>, content: string)

  function Texts(lines: seq<Line>, a: nat, b: nat): seq<string>
    requires a <= b <= |lines|
  {
    if a == b then [] else Texts(lines, a, b - 1) + [lines[b - 1].text]
  }

  /** The first `n` pieces under a path. */
  function Filed(path: seq<string>, pieces: seq<string>, n: nat): seq<Chunk>
    requires n <= |pieces|
  {
    if n == 0 then [] else Filed(path, pieces, n - 1) + [Chunk(path, pieces[n - 1])]
  }

  /** The chunks are those of the blocks in order, each block packed and filed under its path. */
  ghost predicate ChunksOf(lines: seq<Line>, paragraphs: seq<string> -> seq<string>, max: nat, blocks: seq<Block>,
                           chunks: seq<Chunk>)
    decreases |blocks|
  {
    if blocks == [] then chunks == [] else
    var b := blocks[|blocks| - 1];
    && b.start <= b.stop <= |lines|
    && exists before, pieces ::
         && ChunksOf(lines, paragraphs, max, blocks[..|blocks| - 1], before)
         && P.IsPack(pieces, paragraphs(Texts(lines, b.start, b.stop)), max)
         && chunks == before + Filed(b.path, pieces, |pieces|)
  }

  /** The chunk is a piece of a block, and its path is the true one at every line of the block. */
  ghost predicate UnderTruePath(lines: seq<Line>, paragraphs: seq<string> -> seq<string>, max: nat, chunk: Chunk)
    requires LinesOk(lines)
  {
    exists i, pieces ::
      && 0 <= i < |Blocks(lines)| && FiledTruly(lines, Blocks(lines)[i]) && Blocks(lines)[i].path == chunk.path
      && PiecesOf(lines, paragraphs, max, Blocks(lines)[i], pieces) && chunk.content in pieces
  }

  ghost predicate PiecesOf(lines: seq<Line>, paragraphs: seq<string> -> seq<string>, max: nat, b: Block,
                           pieces: seq<string>)
  {
    b.start <= b.stop <= |lines| && P.IsPack(pieces, paragraphs(Texts(lines, b.start, b.stop)), max)
  }

  /** The block and the pieces a chunk comes from. */
  lemma {:induction false} ChunkHasBlock(lines: seq<Line>, paragraphs: seq<string> -> seq<string>, max: nat,
                                         blocks: seq<Block>, chunks: seq<Chunk>, c: nat)
    returns (i: nat, pieces: seq<string>)
    requires ChunksOf(lines, paragraphs, max, blocks, chunks) && c < |chunks|
    ensures i < |blocks| && PiecesOf(lines, paragraphs, max, blocks[i], pieces)
    ensures chunks[c].path == blocks[i].path && chunks[c].content in pieces
    decreases |blocks|
  {
    hide P.IsPack;
    i := |blocks| - 1;
    var b := blocks[i];
    var before, own :| && ChunksOf(lines, paragraphs, max, blocks[..i], before)
                       && P.IsPack(own, paragraphs(Texts(lines, b.start, b.stop)), max)
                       && chunks == before + Filed(b.path, own, |own|);
    FiledAt(b.path, own, |own|);
    if c < |before| {
      i, pieces := ChunkHasBlock(lines, paragraphs, max, blocks[..i], before, c);
    } else {
      pieces := own;
    }
  }

  lemma {:induction false} FiledAt(path: seq<string>, pieces: seq<string>, n: nat)
    requires n <= |pieces|
    ensures |Filed(path, pieces, n)| == n
    ensures forall j :: 0 <= j < n ==> Filed(path, pieces, n)[j] == Chunk(path, pieces[j])
  {
    if n > 0 {
      FiledAt(path, pieces, n - 1);
    }
  }

  /** When levels start at one and never skip, every chunk carries its true ancestor path. */
  lemma ChunksUnderTruePaths(lines: seq<Line>, paragraphs: seq<string> -> seq<string>, max: nat, chunks: seq<Chunk>)
    requires LinesOk(lines) && NeverSkips(lines, |lines|) && ChunksOf(lines, paragraphs, max, Blocks(lines), chunks)
    ensures forall c :: 0 <= c < |chunks| ==> UnderTruePath(lines, paragraphs, max, chunks[c])
  {
    ProperCuts(lines);
    BlocksFiledTruly(lines);
    hide ChunksOf, Blocks, PiecesOf, FiledTruly, CutsRight, NeverSkips;
    forall c | 0 <= c < |chunks| ensures UnderTruePath(lines, paragraphs, max, chunks[c]) {
      var i, pieces := ChunkHasBlock(lines, paragraphs, max, Blocks(lines), chunks, c);
      assert FiledTruly(lines, Blocks(lines)[i]);
    }
  }

  /** `flush`: packs the buffer and files the pieces under the current path. */
  method Flush(chunks: seq<Chunk>, stack: seq<string>, buf: seq<string>, paragraphs: seq<string> -> seq<string>,
               max: nat)
    returns (more: seq<Chunk>)
    requires max >= 1
    ensures exists pieces :: P.IsPack(pieces, paragraphs(buf), max) && more == chunks + Filed(stack, pieces, |pieces|)
  {
    hide P.IsPack;
    var pieces := P.Pack(paragraphs(buf), max);
    more := chunks;
    for i := 0 to |pieces|
      invariant more == chunks + Filed(stack, pieces, i)
    {
      more := more + [Chunk(stack, pieces[i])];
    }
  }

  /** `chunk_markdown`: `paragraphs` joins, strips and splits a buffer at blank lines. */
  method ChunkMarkdown(lines: seq<Line>, paragraphs: seq<string> -> seq<string>, max: nat) returns (chunks: seq<Chunk>)
    requires LinesOk(lines) && max >= 1
    ensures ChunksOf(lines, paragraphs, max, Blocks(lines), chunks)
    ensures NeverSkips(lines, |lines|) ==>
              forall c :: 0 <= c < |chunks| ==> UnderTruePath(lines, paragraphs, max, chunks[c])
  {
    hide ChunksOf, Filed, UnderTruePath, NeverSkips, P.IsPack, InFence;
    assert InFence(lines, 0) == false by { StartsOutside(lines); }
    NothingFiled(lines, paragraphs, max);
    chunks := [];
    var stack, buf, inFence := [], [], false;
    for n := 0 to |lines|
      invariant inFence == InFence(lines, n) && stack == Stack(lines, n) && buf == Texts(lines, OpenFrom(lines, n), n)
      invariant ChunksOf(lines, paragraphs, max, Flushed(lines, n), chunks)
    {
      var line := lines[n];
      FenceStep(lines, n);
      if line.Fence? {
        inFence, buf := !inFence, buf + [line.text];
      } else if line.Heading? && !inFence {
        ghost var before := chunks;
        chunks := Flush(chunks, stack, buf, paragraphs, max);
        FiledSnoc(lines, paragraphs, max, Flushed(lines, n), before, Block(stack, OpenFrom(lines, n), n), chunks);
        buf := [];
        stack := stack[..if line.level - 1 <= |stack| then line.level - 1 else |stack|] + [line.title];
      } else {
        buf := buf + [line.text];
      }
    }
    ghost var before := chunks;
    chunks := Flush(chunks, stack, buf, paragraphs, max);
    FiledSnoc(lines, paragraphs, max, Flushed(lines, |lines|), before, Block(stack, OpenFrom(lines, |lines|), |lines|),
              chunks);
    if NeverSkips(lines, |lines|) {
      ChunksUnderTruePaths(lines, paragraphs, max, chunks);
    }
  }

  lemma StartsOutside(lines: seq<Line>)
    ensures !InFence(lines, 0)
  {
  }

  lemma FenceStep(lines: seq<Line>, n: nat)
    requires n < |lines|
    ensures InFence(lines, n + 1) == (InFence(lines, n) != lines[n].Fence?)
  {
  }

  lemma NothingFiled(lines: seq<Line>, paragraphs: seq<string> -> seq<string>, max: nat)
    ensures ChunksOf(lines, paragraphs, max, [], [])
  {
  }

  lemma FiledSnoc(lines: seq<Line>, paragraphs: seq<string> -> seq<string>, max: nat, blocks: seq<Block>,
                  before: seq<Chunk>, b: Block, chunks: seq<Chunk>)
    requires ChunksOf(lines, paragraphs, max, blocks, before) && b.start <= b.stop <= |lines|
    requires exists pieces :: P.IsPack(pieces, paragraphs(Texts(lines, b.start, b.stop)), max)
                              && chunks == before + Filed(b.path, pieces, |pieces|)
    ensures ChunksOf(lines, paragraphs, max, blocks + [b], chunks)
  {
    hide P.IsPack, Filed;
    assert (blocks + [b])[..|blocks|] == blocks;
  }
}
