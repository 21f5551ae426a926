/** Greedy paragraph packing, `_pack` of `rag/chunking.py`. */
module Packing {

  /** What one emitted piece holds: whole paragraphs, or a slice of one that is too long. */
  datatype Piece = Whole(paras: seq<string>) | Slice(text: string, first: bool)

  const GAP := "\n\n"

  function Joined(paras: seq<string>): string {
    if paras == [] then "" else if |paras| == 1 then paras[0]
    else Joined(paras[..|paras| - 1]) + GAP + paras[|paras| - 1]
  }

  function TextOf(p: Piece): string {
    match p
    case Whole(paras) => Joined(paras)
    case Slice(text, _) => text
  }

  /** The paragraphs the first `n` pieces were made of. */
  function Unpacked(pieces: seq<Piece>, n: nat): seq<string>
    requires n <= |pieces|
  {
    if n == 0 then [] else
    var before := Unpacked(pieces, n - 1);
    match pieces[n - 1]
    case Whole(paras) => before + paras
    case Slice(text, first) =>
      if first || before == [] then before + [text] else before[|before| - 1 := before[|before| - 1] + text]
  }

  /** The paragraphs that are not empty after stripping. */
  function Kept(parts: seq<string>, n: nat): seq<string>
    requires n <= |parts|
  {
    if n == 0 then [] else Kept(parts, n - 1) + if parts[n - 1] == "" then [] else [parts[n - 1]]
  }

  function Concat(parts: seq<string>, n: nat): string
    requires n <= |parts|
  {
    if n == 0 then "" else Concat(parts, n - 1) + parts[n - 1]
  }

  function Filled(parts: seq<string>, n: nat): set<nat>
    requires n <= |parts|
  {
    set k: nat | k < n && parts[k] != ""
  }

  /** As many paragraphs are kept as are not empty, an empty one never ... */
  lemma {:induction false} KeptExactly(parts: seq<string>, n: nat)
    requires n <= |parts|
    ensures |Kept(parts, n)| == |Filled(parts, n)| && "" !in Kept(parts, n)
  {
    if n == 0 {
      assert Filled(parts, 0) == {};
    } else {
      var before := Filled(parts, n - 1);
      KeptExactly(parts, n - 1);
      assert Filled(parts, n) == if parts[n - 1] == "" then before else before + {n - 1};
    }
  }

  lemma KeptSnoc(parts: seq<string>, n: nat)
    requires n < |parts|
    ensures Kept(parts, n + 1) == if parts[n] == "" then Kept(parts, n) else Kept(parts, n) + [parts[n]]
  {
  }

  /** ... and their text is the same. */
  lemma {:induction false} KeptInOrder(parts: seq<string>, n: nat)
    requires n <= |parts|
    ensures Concat(Kept(parts, n), |Kept(parts, n)|) == Concat(parts, n)
  {
    if n > 0 {
      var (before, p) := (Kept(parts, n - 1), parts[n - 1]);
      KeptInOrder(parts, n - 1);
      KeptSnoc(parts, n - 1);
      hide Kept;
      if p != "" {
        ConcatPrefix(before, [p], |before|);
        assert Concat(before + [p], |before| + 1) == Concat(before, |before|) + p;
      } else {
        assert before + [] == before;
      }
    }
  }

  lemma {:induction false} ConcatPrefix(a: seq<string>, b: seq<string>, n: nat)
    requires n <= |a|
    ensures Concat(a + b, n) == Concat(a, n)
  {
    if n > 0 {
      ConcatPrefix(a, b, n - 1);
    }
  }

  predicate PieceOk(p: Piece, max: nat) {
    && 1 <= |TextOf(p)| <= max
    && (p.Whole? ==> p.paras != [] && forall i :: 0 <= i < |p.paras| ==> 0 < |p.paras[i]| <= max)
  }

  // ---------------------------------------------------------------- packings of a paragraph list

  /** Characters of paragraphs `a` up to `b` joined by gaps. */
  function Span(paras: seq<string>, a: nat, b: nat): nat
    requires a < b <= |paras|
  {
    if b == a + 1 then |paras[a]| else Span(paras, a, b - 1) + 2 + |paras[b - 1]|
  }

  /** An order-preserving packing of the first `n` paragraphs, by the ends of its groups. */
  predicate IsPacking(paras: seq<string>, max: nat, ends: seq<nat>, n: nat)
    requires n <= |paras|
  {
    if ends == [] then n == 0 else
    var last := |ends| - 1;
    var start := if last == 0 then 0 else ends[last - 1];
    && ends[last] == n && start < n && Span(paras, start, n) <= max
    && IsPacking(paras, max, ends[..last], start)
  }

  /** No packing of the first `n` paragraphs has fewer than `m` groups. */
  ghost predicate Needs(paras: seq<string>, max: nat, n: nat, m: nat)
    requires n <= |paras|
  {
    forall ends :: IsPacking(paras, max, ends, n) ==> m <= |ends|
  }

  lemma {:induction false} SpanWidens(paras: seq<string>, a: nat, c: nat, b: nat)
    requires a <= c < b <= |paras|
    ensures Span(paras, c, b) <= Span(paras, a, b)
  {
    if c + 1 < b {
      SpanWidens(paras, a, c, b - 1);
    }
  }

  lemma {:induction false} SpanGrows(paras: seq<string>, a: nat, b: nat, c: nat)
    requires a < b <= c <= |paras|
    ensures Span(paras, a, b) <= Span(paras, a, c)
  {
    if b < c {
      SpanGrows(paras, a, b, c - 1);
    }
  }

  /** Cutting a packing short never adds a group. */
  lemma {:induction false} Restrict(paras: seq<string>, max: nat, ends: seq<nat>, n: nat, k: nat)
    returns (cut: seq<nat>)
    requires n <= |paras| && 0 < k <= n && IsPacking(paras, max, ends, n)
    ensures IsPacking(paras, max, cut, k) && |cut| <= |ends|
    decreases |ends|
  {
    var last := |ends| - 1;
    var start := if last == 0 then 0 else ends[last - 1];
    if k <= start {
      cut := Restrict(paras, max, ends[..last], start, k);
    } else {
      SpanGrows(paras, start, k, n);
      cut := ends[..last] + [k];
      assert cut[..last] == ends[..last];
    }
  }

  /** Where the group that starts at `s` cannot take paragraph `i`, one more group is needed. */
  lemma OneMoreNeeded(paras: seq<string>, max: nat, s: nat, i: nat, m: nat)
    requires s < i < |paras| && Needs(paras, max, s + 1, m) && Span(paras, s, i + 1) > max
    ensures Needs(paras, max, i + 1, m + 1)
  {
    forall ends | IsPacking(paras, max, ends, i + 1) ensures m + 1 <= |ends| {
      var last := |ends| - 1;
      var start := if last == 0 then 0 else ends[last - 1];
      if start <= s {
        SpanWidens(paras, start, s, i + 1);
      }
      var cut := Restrict(paras, max, ends[..last], start, s + 1);
    }
  }

  lemma NeedsMore(paras: seq<string>, max: nat, k: nat, n: nat, m: nat)
    requires 0 < k <= n <= |paras| && Needs(paras, max, k, m)
    ensures Needs(paras, max, n, m)
  {
    forall ends | IsPacking(paras, max, ends, n) ensures m <= |ends| {
      var cut := Restrict(paras, max, ends, n, k);
    }
  }

  lemma {:induction false} JoinedLength(paras: seq<string>, a: nat, b: nat)
    requires a < b <= |paras|
    ensures |Joined(paras[a..b])| == Span(paras, a, b)
  {
    var group := paras[a..b];
    if b > a + 1 {
      JoinedLength(paras, a, b - 1);
      assert group[..|group| - 1] == paras[a..b - 1];
    }
  }

  // ---------------------------------------------------------------- the greedy loop

  lemma JoinedSnoc(paras: seq<string>, p: string)
    ensures Joined(paras + [p]) == if paras == [] then p else Joined(paras) + GAP + p
  {
    assert (paras + [p])[..|paras|] == paras;
  }

  lemma {:induction false} UnpackedPrefix(a: seq<Piece>, b: seq<Piece>, n: nat)
    requires n <= |a|
    ensures Unpacked(a + b, n) == Unpacked(a, n)
  {
    if n > 0 {
      UnpackedPrefix(a, b, n - 1);
    }
  }

  lemma UnpackedSnoc(pieces: seq<Piece>, p: Piece)
    ensures Unpacked(pieces + [p], |pieces| + 1) ==
      var before := Unpacked(pieces, |pieces|);
      match p
      case Whole(paras) => before + paras
      case Slice(text, first) =>
        if first || before == [] then before + [text] else before[|before| - 1 := before[|before| - 1] + text]
  {
    UnpackedPrefix(pieces, [p], |pieces|);
  }

  ghost predicate Emitted(out: seq<string>, pieces: seq<Piece>, max: nat) {
    |out| == |pieces| && forall i :: 0 <= i < |out| ==> out[i] == TextOf(pieces[i]) && PieceOk(pieces[i], max)
  }

  lemma EmittedSnoc(out: seq<string>, pieces: seq<Piece>, max: nat, p: Piece)
    requires Emitted(out, pieces, max) && PieceOk(p, max)
    ensures Emitted(out + [TextOf(p)], pieces + [p], max)
  {
    hide PieceOk, TextOf;
  }

  /** Cuts one overlong paragraph into slices. */
  method Cut(para: string, max: nat, out: seq<string>, ghost pieces: seq<Piece>)
    returns (more: seq<string>, ghost cut: seq<Piece>)
    requires 1 <= max < |para| && Emitted(out, pieces, max)
    ensures Emitted(more, cut, max)
    ensures Unpacked(cut, |cut|) == Unpacked(pieces, |pieces|) + [para]
  {
    hide Emitted, Unpacked, PieceOk;
    more, cut := out, pieces;
    var i := 0;
    while i < |para|
      invariant i <= |para| && Emitted(more, cut, max)
      invariant Unpacked(cut, |cut|)
             == if i == 0 then Unpacked(pieces, |pieces|) else Unpacked(pieces, |pieces|) + [para[..i]]
    {
      var stop := if i + max < |para| then i + max else |para|;
      ghost var slice := Slice(para[i..stop], i == 0);
      SliceOk(slice, max);
      EmittedSnoc(more, cut, max, slice);
      UnpackedSnoc(cut, slice);
      assert para[..stop] == para[..i] + para[i..stop];
      more, cut := more + [para[i..stop]], cut + [slice];
      i := stop;
    }
    assert para[..|para|] == para;
  }

  lemma SliceOk(p: Piece, max: nat)
    requires p.Slice? && 1 <= |p.text| <= max
    ensures PieceOk(p, max)
  {
  }

  /** Where the loop stands after the paragraphs `paras`. */
  ghost predicate Standing(paras: seq<string>, max: nat, out: seq<string>, pieces: seq<Piece>, cur: string,
                           group: seq<string>, small: bool)
  {
    && Emitted(out, pieces, max) && Unpacked(pieces, |pieces|) + group == paras
    && cur == Joined(group) && (cur == "" <==> group == []) && (group != [] ==> PieceOk(Whole(group), max))
    && (small ==> Greedy(paras, max, pieces, group))
  }

  /** The loop body for one paragraph. */
  method Take(para: string, max: nat, out: seq<string>, cur: string,
              ghost paras: seq<string>, ghost pieces: seq<Piece>, ghost group: seq<string>, ghost small: bool)
    returns (more: seq<string>, next: string, ghost emitted: seq<Piece>, ghost open: seq<string>)
    requires max >= 1 && para != "" && Standing(paras, max, out, pieces, cur, group, small)
    ensures Standing(paras + [para], max, more, emitted, next, open, small && |para| <= max)
  {
    more, emitted, next, open := out, pieces, cur, group;
    hide Emitted, Greedy, Joined, Unpacked, PieceOk;
    if |para| > max {
      NoGroup();
      if cur != "" {
        more, emitted := Emit(more, emitted, cur, group, max);
      }
      assert Unpacked(emitted, |emitted|) == paras;
      more, emitted := Cut(para, max, more, emitted);
      next, open := "", [];
    } else if |cur| + |para| + 2 > max {
      if small {
        StartGroup(paras, max, pieces, group, para);
      }
      if cur != "" {
        more, emitted := Emit(more, emitted, cur, group, max);
      }
      OneParagraph(para, max);
      next, open := para, [para];
    } else {
      if small {
        GrowGroup(paras, max, pieces, group, para);
      }
      GroupStaysOk(group, para, max);
      next, open := if cur != "" then cur + GAP + para else para, group + [para];
      assert Unpacked(pieces, |pieces|) + (group + [para]) == paras + [para];
    }
  }

  predicate AllFit(parts: seq<string>, n: nat, max: nat)
    requires n <= |parts|
  {
    forall i :: 0 <= i < n ==> |parts[i]| <= max
  }

  /** What `_pack` must emit: pieces of 1 to `max` characters that unpack to the kept paragraphs; and
      if every part fits, pieces of whole paragraphs, as few as any packing has. */
  ghost predicate IsPack(out: seq<string>, parts: seq<string>, max: nat) {
    var paras := Kept(parts, |parts|);
    && (exists pieces: seq<Piece> :: Holds(out, pieces, paras, max, AllFit(parts, |parts|, max)))
    && (AllFit(parts, |parts|, max) ==> Needs(paras, max, |paras|, |out|))
  }

  ghost predicate Holds(out: seq<string>, pieces: seq<Piece>, paras: seq<string>, max: nat, small: bool) {
    && Emitted(out, pieces, max) && Unpacked(pieces, |pieces|) == paras
    && (small ==> forall i :: 0 <= i < |pieces| ==> pieces[i].Whole?)
  }

  /** `_pack`. */
  method Pack(parts: seq<string>, max: nat) returns (out: seq<string>)
    requires max >= 1
    ensures IsPack(out, parts, max)
  {
    NothingYet(parts, max);
    hide Emitted, Greedy, Joined, Unpacked, PieceOk, IsPacking, Standing, Kept;
    out := [];
    ghost var pieces: seq<Piece> := [];
    var cur := "";
    ghost var group: seq<string> := [];
    ghost var small := true;
    for n := 0 to |parts|
      invariant small <==> AllFit(parts, n, max)
      invariant Standing(Kept(parts, n), max, out, pieces, cur, group, small)
    {
      ghost var paras := Kept(parts, n);
      KeptSnoc(parts, n);
      if parts[n] != "" {
        out, cur, pieces, group := Take(parts[n], max, out, cur, paras, pieces, group, small);
        small := small && |parts[n]| <= max;
      }
    }
    out, pieces := Close(max, out, cur, Kept(parts, |parts|), pieces, group, small);
  }

  lemma NothingYet(parts: seq<string>, max: nat)
    ensures Kept(parts, 0) == [] && Standing([], max, [], [], "", [], true)
  {
  }

  /** The last group is emitted too. */
  method Close(max: nat, out: seq<string>, cur: string, ghost paras: seq<string>, ghost pieces: seq<Piece>,
               ghost group: seq<string>, ghost small: bool)
    returns (more: seq<string>, ghost emitted: seq<Piece>)
    requires Standing(paras, max, out, pieces, cur, group, small)
    ensures Holds(more, emitted, paras, max, small)
    ensures small ==> Needs(paras, max, |paras|, |more|)
  {
    hide Emitted, Greedy, Joined, Unpacked, PieceOk, IsPacking;
    if small {
      GreedyNeeds(paras, max, pieces, group);
    }
    EmittedLength(out, pieces, max);
    more, emitted := out, pieces;
    if cur != "" {
      more, emitted := Emit(out, pieces, cur, group, max);
    }
  }

  lemma EmittedLength(out: seq<string>, pieces: seq<Piece>, max: nat)
    requires Emitted(out, pieces, max)
    ensures |out| == |pieces|
  {
  }

  method Emit(out: seq<string>, ghost pieces: seq<Piece>, cur: string, ghost group: seq<string>, ghost max: nat)
    returns (more: seq<string>, ghost emitted: seq<Piece>)
    requires Emitted(out, pieces, max) && cur == Joined(group) && group != [] && PieceOk(Whole(group), max)
    ensures Emitted(more, emitted, max) && emitted == pieces + [Whole(group)] && |more| == |out| + 1
    ensures Unpacked(emitted, |emitted|) == Unpacked(pieces, |pieces|) + group
  {
    UnpackedSnoc(pieces, Whole(group));
    more, emitted := out + [cur], pieces + [Whole(group)];
  }

  lemma NoGroup()
    ensures Joined([]) == ""
  {
  }

  lemma OneParagraph(para: string, max: nat)
    requires 0 < |para| <= max
    ensures Joined([para]) == para && PieceOk(Whole([para]), max)
  {
  }

  lemma GroupStaysOk(group: seq<string>, para: string, max: nat)
    requires 0 < |para| <= max && (group != [] ==> PieceOk(Whole(group), max))
    requires |Joined(group)| + |para| + 2 <= max
    ensures PieceOk(Whole(group + [para]), max)
    ensures Joined(group + [para]) == if group == [] then para else Joined(group) + GAP + para
  {
    JoinedSnoc(group, para);
  }

  /** The open group holds the last paragraphs, and the pieces so far together with it are needed for
      its first paragraph already. */
  ghost predicate Greedy(paras: seq<string>, max: nat, pieces: seq<Piece>, group: seq<string>) {
    && |group| <= |paras| && group == paras[|paras| - |group|..]
    && (forall i :: 0 <= i < |pieces| ==> pieces[i].Whole?)
    && (group == [] ==> paras == [] && pieces == [])
    && (group != [] ==> Needs(paras, max, |paras| - |group| + 1, |pieces| + 1))
  }

  lemma {:induction false} SpanOfPrefix(paras: seq<string>, para: string, a: nat, b: nat)
    requires a < b <= |paras|
    ensures Span(paras + [para], a, b) == Span(paras, a, b)
  {
    if b > a + 1 {
      SpanOfPrefix(paras, para, a, b - 1);
    }
  }

  lemma {:induction false} PackingOfPrefix(paras: seq<string>, max: nat, para: string, ends: seq<nat>, n: nat)
    requires n <= |paras|
    ensures IsPacking(paras + [para], max, ends, n) <==> IsPacking(paras, max, ends, n)
    decreases |ends|
  {
    if ends != [] {
      var last := |ends| - 1;
      var start := if last == 0 then 0 else ends[last - 1];
      if start < n {
        SpanOfPrefix(paras, para, start, n);
        PackingOfPrefix(paras, max, para, ends[..last], start);
      }
    }
  }

  lemma NeedsOfPrefix(paras: seq<string>, max: nat, para: string, n: nat, m: nat)
    requires n <= |paras| && Needs(paras, max, n, m)
    ensures Needs(paras + [para], max, n, m)
  {
    forall ends | IsPacking(paras + [para], max, ends, n) ensures m <= |ends| {
      PackingOfPrefix(paras, max, para, ends, n);
    }
  }

  lemma SpanSnoc(paras: seq<string>, a: nat, b: nat)
    requires a < b < |paras|
    ensures Span(paras, a, b + 1) == Span(paras, a, b) + 2 + |paras[b]|
  {
  }

  lemma FirstNeeded(paras: seq<string>, max: nat)
    requires paras != []
    ensures Needs(paras, max, 1, 1)
  {
  }

  lemma StartGroup(paras: seq<string>, max: nat, pieces: seq<Piece>, group: seq<string>, para: string)
    requires Greedy(paras, max, pieces, group) && |Joined(group)| + |para| + 2 > max
    ensures Greedy(paras + [para], max, if group == [] then pieces else pieces + [Whole(group)], [para])
  {
    hide Needs, Joined, IsPacking;
    var all := paras + [para];
    assert all[|paras|..] == [para];
    if group != [] {
      var (s, i) := (|paras| - |group|, |paras|);
      NeedsOfPrefix(paras, max, para, s + 1, |pieces| + 1);
      assert paras[s..i] == group;
      JoinedLength(paras, s, i);
      SpanOfPrefix(paras, para, s, i);
      hide Span;
      SpanSnoc(all, s, i);
      OneMoreNeeded(all, max, s, i, |pieces| + 1);
    } else {
      FirstNeeded(all, max);
    }
  }

  lemma GrowGroup(paras: seq<string>, max: nat, pieces: seq<Piece>, group: seq<string>, para: string)
    requires Greedy(paras, max, pieces, group)
    ensures Greedy(paras + [para], max, pieces, group + [para])
  {
    hide Needs, IsPacking;
    var all := paras + [para];
    assert all[|paras| - |group|..] == group + [para];
    if group == [] {
      FirstNeeded(all, max);
    } else {
      NeedsOfPrefix(paras, max, para, |paras| - |group| + 1, |pieces| + 1);
    }
  }

  lemma GreedyNeeds(paras: seq<string>, max: nat, pieces: seq<Piece>, group: seq<string>)
    requires Greedy(paras, max, pieces, group)
    ensures forall i :: 0 <= i < |pieces| ==> pieces[i].Whole?
    ensures Needs(paras, max, |paras|, |pieces| + if group == [] then 0 else 1)
  {
    if group != [] {
      NeedsMore(paras, max, |paras| - |group| + 1, |paras|, |pieces| + 1);
    }
  }
}
