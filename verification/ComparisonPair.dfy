/** The rename-detecting diff of two sealed snapshots, `workbench/comparison_pair.py`. */
module ComparisonPair {
  import opened Basics
  import O = Order

  type Files = map<Path, Digest>

  // ---------------------------------------------------------------- what the diff means

  /** Paths only the first snapshot has. */
  function Gone(a: Files, b: Files): set<Path> {
    a.Keys - b.Keys
  }

  /** The one gone path with its digest. */
  predicate OnlyGone(a: Files, b: Files, s: Path) {
    s in Gone(a, b) && forall p :: p in Gone(a, b) && a[p] == a[s] ==> p == s
  }

  /** A rename: on each side the only path gone with the digest they share. */
  predicate Renames(a: Files, b: Files, s: Path, t: Path) {
    OnlyGone(a, b, s) && OnlyGone(b, a, t) && a[s] == b[t]
  }

  ghost predicate RenamedFrom(a: Files, b: Files, s: Path) {
    exists t :: Renames(a, b, s, t)
  }

  ghost predicate Deleted(a: Files, b: Files, p: Path) {
    p in Gone(a, b) && !RenamedFrom(a, b, p)
  }

  predicate Modified(a: Files, b: Files, p: Path) {
    p in a && p in b && a[p] != b[p]
  }

  predicate Unchanged(a: Files, b: Files, p: Path) {
    p in a && p in b && a[p] == b[p]
  }

  /** Seen from the other side, the same pair is the reverse rename. */
  lemma RenamesMirror(a: Files, b: Files, s: Path, t: Path)
    ensures Renames(a, b, s, t) <==> Renames(b, a, t, s)
  {
  }

  /** Renames are one-to-one. */
  lemma RenamesBijective(a: Files, b: Files, s: Path, t: Path, s': Path, t': Path)
    requires Renames(a, b, s, t) && Renames(a, b, s', t')
    ensures s == s' <==> t == t'
    ensures a[s] == b[t]
  {
  }

  /** A gone path is a rename source exactly if its digest is gone once here and once there. */
  lemma RenamedExactly(a: Files, b: Files, s: Path)
    requires s in Gone(a, b)
    ensures RenamedFrom(a, b, s) <==>
      (forall p :: p in Gone(a, b) && a[p] == a[s] ==> p == s) && exists t :: OnlyGone(b, a, t) && b[t] == a[s]
  {
    if RenamedFrom(a, b, s) {
      var t :| Renames(a, b, s, t);
      assert OnlyGone(b, a, t);
    } else if exists t :: OnlyGone(b, a, t) && b[t] == a[s] {
      var t :| OnlyGone(b, a, t) && b[t] == a[s];
      assert !Renames(a, b, s, t);
    }
  }

  // ---------------------------------------------------------------- sorted lists

  predicate PathBefore(a: Path, b: Path) {
    O.Less(a.text, b.text)
  }

  lemma PathOrder()
    ensures O.StrictTotal(PathBefore)
  {
    forall a: Path ensures !PathBefore(a, a) {
      O.LessIrreflexive(a.text);
    }
    forall a, b, c | PathBefore(a, b) && PathBefore(b, c) ensures PathBefore(a, c) {
      O.LessTransitive(a.text, b.text, c.text);
    }
    forall a: Path, b: Path ensures PathBefore(a, b) || a == b || PathBefore(b, a) {
      O.LessTotal(a.text, b.text);
    }
  }

  /** Renames sort by their source, then by their target. */
  predicate PairBefore(a: (Path, Path), b: (Path, Path)) {
    PathBefore(a.0, b.0) || (a.0 == b.0 && PathBefore(a.1, b.1))
  }

  lemma PairOrder()
    ensures O.StrictTotal(PairBefore)
  {
    PathOrder();
    forall a: (Path, Path) ensures !PairBefore(a, a) {
    }
    forall a, b, c | PairBefore(a, b) && PairBefore(b, c) ensures PairBefore(a, c) {
      if PathBefore(a.0, b.0) && PathBefore(b.0, c.0) {
        assert PathBefore(a.0, c.0);
      } else if PathBefore(a.1, b.1) && PathBefore(b.1, c.1) {
        assert PathBefore(a.1, c.1);
      }
    }
    forall a: (Path, Path), b: (Path, Path) ensures PairBefore(a, b) || a == b || PairBefore(b, a) {
      assert PathBefore(a.0, b.0) || a.0 == b.0 || PathBefore(b.0, a.0);
      assert PathBefore(a.1, b.1) || a.1 == b.1 || PathBefore(b.1, a.1);
    }
  }

  /** `sorted(set)`. */
  method SortedPaths(s: set<Path>) returns (list: seq<Path>)
    ensures O.Ascending(list, PathBefore) && forall p :: p in list <==> p in s
  {
    var (todo, items) := (s, []);
    while todo != {}
      invariant todo <= s && forall p :: p in s <==> p in todo || p in items
      invariant forall p :: p in items ==> p !in todo
      invariant forall i, j :: 0 <= i < j < |items| ==> items[i] != items[j]
      decreases |todo|
    {
      var p :| p in todo;
      todo, items := todo - {p}, items + [p];
    }
    PathOrder();
    list := O.Sort(items, PathBefore);
  }

  // ---------------------------------------------------------------- the diff

  datatype Diff = Diff(added: seq<Path>, modified: seq<Path>, deleted: seq<Path>, renamed: seq<(Path, Path)>)

  /** The four lists, each sorted, hold exactly what the definitions say. */
  ghost predicate IsDiff(a: Files, b: Files, d: Diff) {
    && O.Ascending(d.added, PathBefore) && O.Ascending(d.modified, PathBefore)
    && O.Ascending(d.deleted, PathBefore) && O.Ascending(d.renamed, PairBefore)
    && (forall p :: p in d.added <==> Deleted(b, a, p))
    && (forall p :: p in d.deleted <==> Deleted(a, b, p))
    && (forall p :: p in d.modified <==> Modified(a, b, p))
    && (forall s, t :: (s, t) in d.renamed <==> Renames(a, b, s, t))
  }

  /** Every base path is exactly one of deleted, renamed, modified and unchanged; every candidate path
      exactly one of added, rename target, modified and unchanged. */
  lemma DiffPartitions(a: Files, b: Files, d: Diff, p: Path)
    requires IsDiff(a, b, d)
    ensures var (deleted, renamed, modified) := (p in d.deleted, (exists t :: (p, t) in d.renamed), p in d.modified);
            && (p in a <==> deleted || renamed || modified || Unchanged(a, b, p))
            && !(deleted && renamed) && !(deleted && modified) && !(renamed && modified)
            && (Unchanged(a, b, p) ==> !deleted && !renamed && !modified)
    ensures var (added, target, modified) := (p in d.added, (exists s :: (s, p) in d.renamed), p in d.modified);
            && (p in b <==> added || target || modified || Unchanged(a, b, p))
            && !(added && target) && !(added && modified) && !(target && modified)
            && (Unchanged(a, b, p) ==> !added && !target && !modified)
  {
    assert (exists t :: (p, t) in d.renamed) <==> RenamedFrom(a, b, p);
    assert (exists s :: (s, p) in d.renamed) <==> RenamedFrom(b, a, p) by {
      forall s ensures (s, p) in d.renamed <==> Renames(b, a, p, s) {
        RenamesMirror(a, b, s, p);
      }
    }
  }

  /** What the lists say about the files: a path both have is listed as modified exactly if its bytes
      changed, a rename moves the same bytes from a path that is gone to a new one, and only equal
      snapshots have an empty diff. */
  lemma {:induction false} DiffSaysWhatChanged(a: Files, b: Files, d: Diff)
    requires IsDiff(a, b, d)
    ensures forall p :: p in d.modified ==> p in a && p in b
    ensures forall p :: p in a && p in b ==> (p in d.modified <==> a[p] != b[p])
    ensures forall p :: p in d.deleted ==> p in a && p !in b
    ensures forall p :: p in d.added ==> p in b && p !in a
    ensures forall s, t :: (s, t) in d.renamed ==> s in a && s !in b && t in b && t !in a && a[s] == b[t]
    ensures d == Diff([], [], [], []) <==> a == b
  {
    forall s, t | (s, t) in d.renamed ensures s in a && s !in b && t in b && t !in a && a[s] == b[t] {
      assert Renames(a, b, s, t);
    }
    hide O.Ascending, RenamedFrom;
    if d == Diff([], [], [], []) {
      forall p ensures (p in a <==> p in b) && (p in a && p in b ==> a[p] == b[p]) {
        DiffPartitions(a, b, d, p);
        assert p !in d.modified;
      }
    }
    if a == b {
      NothingChanged(a, d);
    }
  }

  lemma NothingChanged(a: Files, d: Diff)
    requires IsDiff(a, a, d)
    ensures d == Diff([], [], [], [])
  {
    NoMembers(d.added);
    NoMembers(d.deleted);
    NoMembers(d.modified);
    NoMembers(d.renamed);
    forall r: (Path, Path) ensures r !in d.renamed {
      assert (r.0, r.1) in d.renamed <==> Renames(a, a, r.0, r.1);
    }
    hide O.Ascending, RenamedFrom;
  }

  lemma NoMembers<T>(s: seq<T>)
    ensures s == [] <==> forall x :: x !in s
  {
    assert s != [] ==> s[0] in s;
  }

  /** Comparing the other way round gives the mirror image. */
  lemma DiffMirrors(a: Files, b: Files, d: Diff, e: Diff)
    requires IsDiff(a, b, d) && IsDiff(b, a, e)
    ensures e.added == d.deleted && e.deleted == d.added && e.modified == d.modified
    ensures |e.renamed| == |d.renamed| && forall s, t :: (s, t) in d.renamed <==> (t, s) in e.renamed
  {
    PathOrder();
    hide PathBefore, Renames, Deleted;
    O.AscendingUnique(e.added, d.deleted, PathBefore);
    O.AscendingUnique(e.deleted, d.added, PathBefore);
    O.AscendingUnique(e.modified, d.modified, PathBefore);
    forall s, t ensures (s, t) in d.renamed <==> (t, s) in e.renamed {
      RenamesMirror(a, b, s, t);
    }
    SameRenameCount(d.renamed, e.renamed);
  }

  lemma SameRenameCount(x: seq<(Path, Path)>, y: seq<(Path, Path)>)
    requires O.Ascending(x, PairBefore) && O.Ascending(y, PairBefore)
    requires forall s, t :: (s, t) in x <==> (t, s) in y
    ensures |x| == |y|
  {
    hide PairBefore;
    var (u, v) := (set p | p in x, set p | p in y);
    PairsSize(x);
    PairsSize(y);
    var w := set p | p in u :: (p.1, p.0);
    assert w == v by {
      forall p ensures p in w <==> p in v {
        if p in v { assert (p.1, p.0) in u; }
      }
    }
    SwapSize(u);
  }

  lemma {:induction false} PairsSize(x: seq<(Path, Path)>)
    requires O.Ascending(x, PairBefore)
    ensures |set p | p in x| == |x|
  {
    PairOrder();
    hide PairBefore;
    if x != [] {
      var init := x[..|x| - 1];
      PairsSize(init);
      assert x == init + [x[|x| - 1]] && x[|x| - 1] !in init;
      assert (set p | p in x) == (set p | p in init) + {x[|x| - 1]};
    }
  }

  lemma {:induction false} SwapSize(u: set<(Path, Path)>)
    ensures |set p | p in u :: (p.1, p.0)| == |u|
  {
    if u != {} {
      var p :| p in u;
      SwapSize(u - {p});
      assert (set q | q in u :: (q.1, q.0)) == (set q | q in u - {p} :: (q.1, q.0)) + {(p.1, p.0)};
    }
  }

  // ---------------------------------------------------------------- building it

  /** The first `n` of the paths that carry digest `d`. */
  function WithDigest(files: Files, paths: seq<Path>, n: nat, d: Digest): seq<Path>
    requires n <= |paths| && forall p :: p in paths ==> p in files
  {
    if n == 0 then [] else
    WithDigest(files, paths, n - 1, d) + if files[paths[n - 1]] == d then [paths[n - 1]] else []
  }

  /** `setdefault(digest, []).append(path)` over a sorted list; `keys` is the insertion order. */
  method ByDigest(files: Files, paths: seq<Path>) returns (groups: map<Digest, seq<Path>>, keys: seq<Digest>)
    requires forall p :: p in paths ==> p in files
    ensures forall d :: d in groups <==> d in keys
    ensures forall d :: d in groups ==> groups[d] == WithDigest(files, paths, |paths|, d)
    ensures forall d :: d !in groups ==> WithDigest(files, paths, |paths|, d) == []
    ensures forall i, j :: 0 <= i < j < |keys| ==> keys[i] != keys[j]
  {
    groups, keys := map[], [];
    for n := 0 to |paths|
      invariant forall d :: d in groups <==> d in keys
      invariant forall d :: d in groups ==> groups[d] == WithDigest(files, paths, n, d)
      invariant forall d :: d !in groups ==> WithDigest(files, paths, n, d) == []
      invariant forall i, j :: 0 <= i < j < |keys| ==> keys[i] != keys[j]
    {
      var d := files[paths[n]];
      if d !in groups {
        keys := keys + [d];
      }
      groups := groups[d := (if d in groups then groups[d] else []) + [paths[n]]];
    }
  }

  lemma {:induction false} WithDigestHolds(files: Files, paths: seq<Path>, n: nat, d: Digest, p: Path)
    requires n <= |paths| && forall q :: q in paths ==> q in files
    ensures p in WithDigest(files, paths, n, d) <==> p in paths[..n] && files[p] == d
  {
    if n > 0 {
      WithDigestHolds(files, paths, n - 1, d, p);
      assert paths[..n] == paths[..n - 1] + [paths[n - 1]];
    }
  }

  lemma {:induction false} WithDigestDistinct(files: Files, paths: seq<Path>, n: nat, d: Digest)
    requires n <= |paths| && (forall q :: q in paths ==> q in files) && O.Ascending(paths, PathBefore)
    ensures forall i, j :: 0 <= i < j < |WithDigest(files, paths, n, d)| ==>
              WithDigest(files, paths, n, d)[i] != WithDigest(files, paths, n, d)[j]
  {
    PathOrder();
    hide PathBefore;
    if n > 0 {
      WithDigestDistinct(files, paths, n - 1, d);
      WithDigestHolds(files, paths, n - 1, d, paths[n - 1]);
    }
  }

  /** One path in the group means the only gone path with that digest. */
  lemma SingleGroup(a: Files, b: Files, paths: seq<Path>, d: Digest, s: Path)
    requires (forall p :: p in paths <==> p in Gone(a, b)) && O.Ascending(paths, PathBefore)
    ensures WithDigest(a, paths, |paths|, d) == [s] <==> OnlyGone(a, b, s) && a[s] == d
  {
    var group := WithDigest(a, paths, |paths|, d);
    assert paths[..|paths|] == paths;
    forall p ensures p in group <==> p in Gone(a, b) && a[p] == d {
      WithDigestHolds(a, paths, |paths|, d, p);
    }
    WithDigestDistinct(a, paths, |paths|, d);
    assert |group| >= 2 ==> group[0] != group[1];
    assert group == [s] ==> s in group;
    if OnlyGone(a, b, s) && a[s] == d {
      assert s in group;
      forall i | 0 <= i < |group| ensures group[i] == s {
        assert group[i] in group;
      }
      assert |group| == 1;
    }
  }

  /** The renames whose digest is among the first `n` keys. */
  ghost predicate FoundSoFar(a: Files, b: Files, keys: seq<Digest>, n: nat, renamed: seq<(Path, Path)>)
    requires n <= |keys|
  {
    && (forall s, t :: (s, t) in renamed <==> Renames(a, b, s, t) && a[s] in keys[..n])
    && (forall i, j :: 0 <= i < j < |renamed| ==> renamed[i] != renamed[j])
  }

  ghost predicate LeftOver(a: Files, b: Files, keys: seq<Digest>, n: nat, remaining: set<Path>)
    requires n <= |keys|
  {
    forall p :: p in remaining <==> p in Gone(a, b) && !(a[p] in keys[..n] && RenamedFrom(a, b, p))
  }

  lemma OneMoreKey(a: Files, b: Files, deleted: seq<Path>, added: seq<Path>, keys: seq<Digest>, n: nat,
                   renamed: seq<(Path, Path)>, remaining: set<Path>, coming: set<Path>)
    requires n < |keys| && keys[n] !in keys[..n]
    requires (forall p :: p in deleted <==> p in Gone(a, b)) && O.Ascending(deleted, PathBefore)
    requires (forall p :: p in added <==> p in Gone(b, a)) && O.Ascending(added, PathBefore)
    requires FoundSoFar(a, b, keys, n, renamed) && LeftOver(a, b, keys, n, remaining) && LeftOver(b, a, keys, n, coming)
    ensures var (x, y) := (WithDigest(a, deleted, |deleted|, keys[n]), WithDigest(b, added, |added|, keys[n]));
            if |x| == 1 && |y| == 1 then
              && FoundSoFar(a, b, keys, n + 1, renamed + [(x[0], y[0])])
              && LeftOver(a, b, keys, n + 1, remaining - {x[0]}) && LeftOver(b, a, keys, n + 1, coming - {y[0]})
            else
              && FoundSoFar(a, b, keys, n + 1, renamed)
              && LeftOver(a, b, keys, n + 1, remaining) && LeftOver(b, a, keys, n + 1, coming)
  {
    KeyDecides(a, b, deleted, added, keys[n]);
    KeyDecides(b, a, added, deleted, keys[n]);
    hide WithDigest, OnlyGone, Renames, FoundSoFar, LeftOver;
    var (x, y) := (WithDigest(a, deleted, |deleted|, keys[n]), WithDigest(b, added, |added|, keys[n]));
    FoundExtends(a, b, keys, n, renamed, x, y);
    LeftExtends(a, b, keys, n, remaining, x, y);
    LeftExtends(b, a, keys, n, coming, y, x);
  }

  /** Which renames the two groups of one digest stand for. */
  lemma KeyDecides(a: Files, b: Files, deleted: seq<Path>, added: seq<Path>, d: Digest)
    requires (forall p :: p in deleted <==> p in Gone(a, b)) && O.Ascending(deleted, PathBefore)
    requires (forall p :: p in added <==> p in Gone(b, a)) && O.Ascending(added, PathBefore)
    ensures var (x, y) := (WithDigest(a, deleted, |deleted|, d), WithDigest(b, added, |added|, d));
            && (forall s, t :: s in Gone(a, b) && a[s] == d ==>
                  (Renames(a, b, s, t) <==> |x| == 1 && |y| == 1 && s == x[0] && t == y[0]))
            && (|x| == 1 && |y| == 1 ==> x[0] in Gone(a, b) && a[x[0]] == d)
  {
    var (x, y) := (WithDigest(a, deleted, |deleted|, d), WithDigest(b, added, |added|, d));
    hide WithDigest, PathBefore;
    assert |x| == 1 ==> x == [x[0]];
    assert |y| == 1 ==> y == [y[0]];
    forall s, t | s in Gone(a, b) && a[s] == d
      ensures Renames(a, b, s, t) <==> |x| == 1 && |y| == 1 && s == x[0] && t == y[0]
    {
      SingleGroup(a, b, deleted, d, s);
      SingleGroup(b, a, added, d, t);
    }
    if |x| == 1 {
      SingleGroup(a, b, deleted, d, x[0]);
    }
  }

  lemma RenameEnds(a: Files, b: Files, s: Path, t: Path)
    ensures Renames(a, b, s, t) ==> s in Gone(a, b) && t in Gone(b, a) && a[s] == b[t]
  {
  }

  lemma FoundExtends(a: Files, b: Files, keys: seq<Digest>, n: nat, renamed: seq<(Path, Path)>, x: seq<Path>,
                     y: seq<Path>)
    requires n < |keys| && keys[n] !in keys[..n] && FoundSoFar(a, b, keys, n, renamed)
    requires forall s, t :: s in Gone(a, b) && a[s] == keys[n] ==>
               (Renames(a, b, s, t) <==> |x| == 1 && |y| == 1 && s == x[0] && t == y[0])
    requires |x| == 1 && |y| == 1 ==> x[0] in Gone(a, b) && a[x[0]] == keys[n]
    ensures FoundSoFar(a, b, keys, n + 1, if |x| == 1 && |y| == 1 then renamed + [(x[0], y[0])] else renamed)
  {
    assert keys[..n + 1] == keys[..n] + [keys[n]];
    forall s, t ensures Renames(a, b, s, t) ==> s in Gone(a, b) {
      RenameEnds(a, b, s, t);
    }
    hide Renames;
  }

  lemma LeftExtends(a: Files, b: Files, keys: seq<Digest>, n: nat, remaining: set<Path>, x: seq<Path>, y: seq<Path>)
    requires n < |keys| && keys[n] !in keys[..n] && LeftOver(a, b, keys, n, remaining)
    requires forall s, t :: s in Gone(a, b) && a[s] == keys[n] ==>
               (Renames(a, b, s, t) <==> |x| == 1 && |y| == 1 && s == x[0] && t == y[0])
    requires |x| == 1 && |y| == 1 ==> x[0] in Gone(a, b) && a[x[0]] == keys[n]
    ensures LeftOver(a, b, keys, n + 1, if |x| == 1 && |y| == 1 then remaining - {x[0]} else remaining)
  {
    assert keys[..n + 1] == keys[..n] + [keys[n]];
    hide Renames;
    forall p | p in Gone(a, b) && a[p] == keys[n] ensures RenamedFrom(a, b, p) <==> |x| == 1 && |y| == 1 && p == x[0] {
      if |x| == 1 && |y| == 1 && p == x[0] {
        assert Renames(a, b, p, y[0]);
      }
    }
    hide RenamedFrom;
  }

  /** The diff computation of `build_comparison_pair`. */
  method BuildDiff(base: Files, candidate: Files) returns (diff: Diff)
    ensures IsDiff(base, candidate, diff)
  {
    var deleted := SortedPaths(base.Keys - candidate.Keys);
    var added := SortedPaths(candidate.Keys - base.Keys);
    var renamed, remainingDeleted, remainingAdded := FindRenames(base, candidate, deleted, added);
    var common := set p | p in base.Keys && p in candidate.Keys && base[p] != candidate[p];
    var modified := SortedPaths(common);
    var addedLeft := SortedPaths(remainingAdded);
    var deletedLeft := SortedPaths(remainingDeleted);
    PairOrder();
    var sorted := O.Sort(renamed, PairBefore);
    diff := Diff(addedLeft, modified, deletedLeft, sorted);
  }

  method FindRenames(base: Files, candidate: Files, deleted: seq<Path>, added: seq<Path>)
    returns (renamed: seq<(Path, Path)>, remainingDeleted: set<Path>, remainingAdded: set<Path>)
    requires (forall p :: p in deleted <==> p in Gone(base, candidate)) && O.Ascending(deleted, PathBefore)
    requires (forall p :: p in added <==> p in Gone(candidate, base)) && O.Ascending(added, PathBefore)
    ensures forall s, t :: (s, t) in renamed <==> Renames(base, candidate, s, t)
    ensures forall i, j :: 0 <= i < j < |renamed| ==> renamed[i] != renamed[j]
    ensures forall p :: p in remainingDeleted <==> Deleted(base, candidate, p)
    ensures forall p :: p in remainingAdded <==> Deleted(candidate, base, p)
  {
    var deletedByDigest, keys := ByDigest(base, deleted);
    var addedByDigest, targets := ByDigest(candidate, added);
    renamed, remainingDeleted, remainingAdded := [], set p | p in deleted, set p | p in added;
    assert LeftOver(base, candidate, keys, 0, remainingDeleted) && LeftOver(candidate, base, keys, 0, remainingAdded);
    for n := 0 to |keys|
      invariant FoundSoFar(base, candidate, keys, n, renamed)
      invariant LeftOver(base, candidate, keys, n, remainingDeleted)
                && LeftOver(candidate, base, keys, n, remainingAdded)
    {
      hide FoundSoFar, LeftOver, WithDigest, PathBefore;
      assert keys[n] !in keys[..n];
      OneMoreKey(base, candidate, deleted, added, keys, n, renamed, remainingDeleted, remainingAdded);
      var sources := deletedByDigest[keys[n]];
      var hits := if keys[n] in addedByDigest then addedByDigest[keys[n]] else [];
      if |sources| == 1 && |hits| == 1 {
        renamed := renamed + [(sources[0], hits[0])];
        remainingDeleted := remainingDeleted - {sources[0]};
        remainingAdded := remainingAdded - {hits[0]};
      }
    }
    AllKeysSeen(base, candidate, deleted, keys);
    assert keys[..|keys|] == keys;
  }

  /** Every digest of a gone path is a key, so after the loop nothing is undecided. */
  lemma AllKeysSeen(base: Files, candidate: Files, deleted: seq<Path>, keys: seq<Digest>)
    requires forall p :: p in deleted <==> p in Gone(base, candidate)
    requires forall d :: d !in keys ==> WithDigest(base, deleted, |deleted|, d) == []
    ensures forall s :: s in Gone(base, candidate) ==> base[s] in keys
    ensures forall s, t :: Renames(candidate, base, t, s) ==> candidate[t] in keys
  {
    forall s | s in Gone(base, candidate) ensures base[s] in keys {
      assert deleted[..|deleted|] == deleted;
      WithDigestHolds(base, deleted, |deleted|, base[s], s);
    }
  }
}
