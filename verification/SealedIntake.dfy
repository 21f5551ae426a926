/** Sealing and resolving a repository tree, `workbench/intake.py`.  The walk visits names in order;
    resolving demands that the recorded paths are in order, which is not the same thing. */
module SealedIntake {
  import opened Basics
  import O = Order

  /** What admission reads of a file. */
  datatype Data = Data(sha256: Digest, bytes: nat)

  datatype Item =
    | Admitted(data: Data)
    | Unsupported
    | Forbidden
    | Ignored(safe: bool)
    | Folder(tree: Tree)

  /** A directory, as the list of its entries in the order `sorted(os.listdir())` gives. */
  datatype Tree = Nil | Cons(name: string, item: Item, rest: Tree)

  datatype Record = Record(path: string, data: Data)

  predicate NameOk(name: string) {
    name != "" && name != ".." && '/' !in name
  }

  predicate AllAbove(name: string, tree: Tree) {
    tree.Cons? ==> O.Less(name, tree.name) && AllAbove(name, tree.rest)
  }

  /** File names without separators, in strictly rising order, at every level. */
  predicate WellFormed(tree: Tree) {
    tree.Cons? ==>
      && NameOk(tree.name) && AllAbove(tree.name, tree.rest) && WellFormed(tree.rest)
      && (tree.item.Folder? ==> WellFormed(tree.item.tree))
  }

  // ---------------------------------------------------------------- the walk

  /** Something in the tree makes admission refuse it. */
  predicate Violates(tree: Tree) {
    tree.Cons? &&
      (|| tree.item.Forbidden? || tree.item == Ignored(false)
       || (tree.item.Folder? && Violates(tree.item.tree)) || Violates(tree.rest))
  }

  /** The admitted files, depth first. */
  function Records(tree: Tree, prefix: string): seq<Record> {
    match tree
    case Nil => []
    case Cons(name, item, rest) =>
      (match item
       case Admitted(data) => [Record(prefix + name, data)]
       case Folder(inner) => Records(inner, prefix + name + "/")
       case _ => [])
      + Records(rest, prefix)
  }

  /** `_copy_directory`: appends the entries and copies the files, or gives up. */
  method CopyDirectory(tree: Tree, prefix: string, target: map<string, Data>)
    returns (entries: Option<seq<Record>>, copied: map<string, Data>)
    ensures entries == if Violates(tree) then None else Some(Records(tree, prefix))
    ensures entries.Some? ==> copied == Copied(target, entries.value, |entries.value|)
    decreases tree
  {
    NoEntries(prefix, target);
    hide Records, Copied, Violates;
    var done: seq<Record> := [];
    var todo := tree;
    copied := target;
    while todo.Cons?
      invariant Violates(tree) == Violates(todo)
      invariant Records(tree, prefix) == done + Records(todo, prefix)
      invariant copied == Copied(target, done, |done|)
      invariant todo == tree || todo < tree
      decreases todo
    {
      var more: Option<seq<Record>>;
      more, copied := CopyEntry(todo.name, todo.item, prefix, copied);
      Split(todo, prefix);
      if more.None? {
        return None, copied;
      }
      CopiedConcat(target, done, more.value);
      assert done + (more.value + Records(todo.rest, prefix)) == (done + more.value) + Records(todo.rest, prefix);
      done, todo := done + more.value, todo.rest;
    }
    assert Records(tree, prefix) == done;
    entries := Some(done);
  }

  lemma {:induction false} NoEntries(prefix: string, target: map<string, Data>)
    ensures Records(Nil, prefix) == [] && Copied(target, [], 0) == target && !Violates(Nil)
  {
  }

  lemma {:induction false} OneEntry(name: string, item: Item, prefix: string)
    ensures Records(Cons(name, item, Nil), prefix) ==
      match item
      case Admitted(data) => [Record(prefix + name, data)]
      case Folder(inner) => Records(inner, prefix + name + "/")
      case _ => []
    ensures Violates(Cons(name, item, Nil)) <==>
      item.Forbidden? || item == Ignored(false) || (item.Folder? && Violates(item.tree))
  {
    assert Records(Nil, prefix) == [];
  }

  /** The body of the loop over one directory: skip, refuse, descend, or copy. */
  method CopyEntry(name: string, item: Item, prefix: string, target: map<string, Data>)
    returns (entries: Option<seq<Record>>, copied: map<string, Data>)
    ensures entries == if Violates(Cons(name, item, Nil)) then None else Some(Records(Cons(name, item, Nil), prefix))
    ensures entries.Some? ==> copied == Copied(target, entries.value, |entries.value|)
    decreases item
  {
    NoEntries(prefix, target);
    OneEntry(name, item, prefix);
    entries, copied := Some([]), target;
    match item {
      case Forbidden =>
        entries := None;
      case Ignored(safe) =>
        if !safe {
          entries := None;
        }
      case Unsupported =>
      case Admitted(data) =>
        var record := Record(prefix + name, data);
        entries, copied := Some([record]), target[record.path := data];
        assert Copied(target, [record], 0) == target;
      case Folder(inner) =>
        entries, copied := CopyDirectory(inner, prefix + name + "/", target);
    }
  }

  /** The target directory after the first `n` files are written. */
  function Copied(target: map<string, Data>, records: seq<Record>, n: nat): map<string, Data>
    requires n <= |records|
  {
    if n == 0 then target else Copied(target, records, n - 1)[records[n - 1].path := records[n - 1].data]
  }

  lemma {:induction false} CopiedPrefix(target: map<string, Data>, a: seq<Record>, b: seq<Record>, n: nat)
    requires n <= |a|
    ensures Copied(target, a + b, n) == Copied(target, a, n)
  {
    if n > 0 {
      CopiedPrefix(target, a, b, n - 1);
    }
  }

  lemma {:induction false} CopiedSuffix(target: map<string, Data>, a: seq<Record>, b: seq<Record>, n: nat)
    requires n <= |b|
    ensures Copied(target, a + b, |a| + n) == Copied(Copied(target, a, |a|), b, n)
  {
    if n == 0 {
      CopiedPrefix(target, a, b, |a|);
    } else {
      CopiedSuffix(target, a, b, n - 1);
    }
  }

  lemma {:induction false} CopiedConcat(target: map<string, Data>, a: seq<Record>, b: seq<Record>)
    ensures Copied(target, a + b, |a + b|) == Copied(Copied(target, a, |a|), b, |b|)
  {
    hide Copied;
    CopiedSuffix(target, a, b, |b|);
    assert |a + b| == |a| + |b|;
  }

  // ---------------------------------------------------------------- the walk finds what is in the tree

  /** What the tree has at a path, given name by name. */
  function ItemAt(tree: Tree, names: seq<string>): Option<Item>
    decreases tree
  {
    if tree.Nil? || names == [] then None
    else if tree.name != names[0] then ItemAt(tree.rest, names)
    else if |names| == 1 then Some(tree.item)
    else if tree.item.Folder? then ItemAt(tree.item.tree, names[1..]) else None
  }

  function JoinedPath(prefix: string, names: seq<string>): string
    requires names != []
    decreases |names|
  {
    if |names| == 1 then prefix + names[0] else JoinedPath(prefix + names[0] + "/", names[1..])
  }

  lemma {:induction false} ItemIsAbove(name: string, tree: Tree, names: seq<string>)
    requires AllAbove(name, tree) && ItemAt(tree, names).Some?
    ensures names != [] && O.Less(name, names[0])
    decreases tree
  {
    if tree.name != names[0] {
      ItemIsAbove(name, tree.rest, names);
    }
  }

  lemma {:induction false} FileIsRecorded(tree: Tree, prefix: string, names: seq<string>, data: Data)
    requires ItemAt(tree, names) == Some(Admitted(data))
    ensures names != [] && Record(JoinedPath(prefix, names), data) in Records(tree, prefix)
    decreases tree
  {
    if tree.name != names[0] {
      FileIsRecorded(tree.rest, prefix, names, data);
    } else if |names| > 1 {
      FileIsRecorded(tree.item.tree, prefix + tree.name + "/", names[1..], data);
    }
  }

  lemma {:induction false} RecordIsFile(tree: Tree, prefix: string, r: Record) returns (names: seq<string>)
    requires WellFormed(tree) && r in Records(tree, prefix)
    ensures names != [] && r.path == JoinedPath(prefix, names) && ItemAt(tree, names) == Some(Admitted(r.data))
    decreases tree
  {
    if r in Records(tree.rest, prefix) {
      names := RecordIsFile(tree.rest, prefix, r);
      ItemIsAbove(tree.name, tree.rest, names);
      O.LessIrreflexive(tree.name);
    } else if tree.item.Folder? {
      names := RecordIsFile(tree.item.tree, prefix + tree.name + "/", r);
      names := [tree.name] + names;
      assert names[1..] + [] == names[1..];
    } else {
      names := [tree.name];
    }
  }

  /** The walk records a path with some contents exactly if the tree has an admitted file there. */
  lemma {:induction false} WalkFindsExactly(tree: Tree, prefix: string, r: Record)
    requires WellFormed(tree)
    ensures r in Records(tree, prefix) <==>
      exists names :: names != [] && r.path == JoinedPath(prefix, names)
                      && ItemAt(tree, names) == Some(Admitted(r.data))
  {
    if r in Records(tree, prefix) {
      var names := RecordIsFile(tree, prefix, r);
    }
    forall names | names != [] && r.path == JoinedPath(prefix, names) && ItemAt(tree, names) == Some(Admitted(r.data))
      ensures r in Records(tree, prefix)
    {
      FileIsRecorded(tree, prefix, names, r.data);
    }
  }

  /** What admission refuses: a forbidden name, or an ignored directory that is not safe to skip. */
  predicate Bad(item: Item) {
    item == Forbidden || item == Ignored(false)
  }

  lemma {:induction false} ViolationIsSomewhere(tree: Tree) returns (names: seq<string>)
    requires WellFormed(tree) && Violates(tree)
    ensures ItemAt(tree, names).Some? && Bad(ItemAt(tree, names).value)
    decreases tree
  {
    if Violates(tree.rest) {
      names := ViolationIsSomewhere(tree.rest);
      ItemIsAbove(tree.name, tree.rest, names);
      O.LessIrreflexive(tree.name);
    } else if tree.item.Folder? {
      names := ViolationIsSomewhere(tree.item.tree);
      names := [tree.name] + names;
    } else {
      names := [tree.name];
    }
  }

  lemma {:induction false} BadViolates(tree: Tree, names: seq<string>)
    requires ItemAt(tree, names).Some? && Bad(ItemAt(tree, names).value)
    ensures Violates(tree)
    decreases tree
  {
    if tree.name != names[0] {
      BadViolates(tree.rest, names);
    } else if |names| > 1 {
      BadViolates(tree.item.tree, names[1..]);
    }
  }

  /** Admission refuses a tree exactly if something at some path of it is bad. */
  lemma {:induction false} ViolatesExactly(tree: Tree)
    requires WellFormed(tree)
    ensures Violates(tree) <==> exists names :: ItemAt(tree, names).Some? && Bad(ItemAt(tree, names).value)
  {
    if Violates(tree) {
      var names := ViolationIsSomewhere(tree);
    }
    forall names | ItemAt(tree, names).Some? && Bad(ItemAt(tree, names).value) ensures Violates(tree) {
      BadViolates(tree, names);
    }
  }

  // ---------------------------------------------------------------- when walk order is path order

  predicate Ascending(records: seq<Record>) {
    forall i, j :: 0 <= i < j < |records| ==> O.Less(records[i].path, records[j].path)
  }

  /** The tree admits some file. */
  predicate Yields(tree: Tree) {
    tree.Cons? && (tree.item.Admitted? || (tree.item.Folder? && Yields(tree.item.tree)) || Yields(tree.rest))
  }

  predicate YieldsHere(item: Item) {
    item.Admitted? || (item.Folder? && Yields(item.tree))
  }

  /** `b` is `a` and something that starts below the separator, as `auth.ts` is to `auth`. */
  predicate Shadows(a: string, b: string) {
    a <= b && |a| < |b| && b[|a|] < '/'
  }

  /** No yielding entry of the list shadows the folder `a`. */
  predicate Unshadowed(a: string, tree: Tree) {
    tree.Cons? ==> !(Shadows(a, tree.name) && YieldsHere(tree.item)) && Unshadowed(a, tree.rest)
  }

  /** At no level does a yielding folder have a yielding sibling that shadows it. */
  predicate NoClash(tree: Tree) {
    tree.Cons? ==>
      && NoClash(tree.rest)
      && (tree.item.Folder? ==>
            && NoClash(tree.item.tree)
            && (Yields(tree.item.tree) ==> Unshadowed(tree.name, tree.rest)))
  }

  lemma {:induction false} YieldsExactly(tree: Tree, prefix: string)
    ensures Yields(tree) <==> Records(tree, prefix) != []
  {
    if tree.Cons? {
      YieldsExactly(tree.rest, prefix);
      if tree.item.Folder? {
        YieldsExactly(tree.item.tree, prefix + tree.name + "/");
      }
    }
  }

  /** A path in the walk of a list is the name of one of its entries, alone or before a separator. */
  predicate ComesFrom(path: string, prefix: string, name: string) {
    prefix + name <= path && (|path| == |prefix + name| || path[|prefix + name|] == '/')
  }

  lemma {:induction false} UnderPrefix(tree: Tree, prefix: string, k: nat)
    requires k < |Records(tree, prefix)|
    ensures prefix <= Records(tree, prefix)[k].path
    decreases tree
  {
    var here := Records(Cons(tree.name, tree.item, Nil), prefix);
    assert Records(Nil, prefix) == [];
    assert Records(tree, prefix) == here + Records(tree.rest, prefix);
    if k >= |here| {
      UnderPrefix(tree.rest, prefix, k - |here|);
    } else if tree.item.Folder? {
      UnderPrefix(tree.item.tree, prefix + tree.name + "/", k);
    }
  }

  lemma {:induction false} HeadComesFrom(name: string, item: Item, prefix: string, k: nat)
    requires k < |Records(Cons(name, item, Nil), prefix)|
    ensures ComesFrom(Records(Cons(name, item, Nil), prefix)[k].path, prefix, name)
    ensures item.Folder? ==> prefix + name + "/" <= Records(Cons(name, item, Nil), prefix)[k].path
  {
    assert Records(Nil, prefix) == [];
    if item.Folder? {
      UnderPrefix(item.tree, prefix + name + "/", k);
    }
  }

  lemma {:induction false} Split(tree: Tree, prefix: string)
    requires tree.Cons?
    ensures Records(tree, prefix) == Records(Cons(tree.name, tree.item, Nil), prefix) + Records(tree.rest, prefix)
    ensures Violates(tree) <==> Violates(Cons(tree.name, tree.item, Nil)) || Violates(tree.rest)
  {
    assert Records(Nil, prefix) == [];
  }

  /** Later names give later paths, except below a shadowed folder. */
  lemma LaterName(prefix: string, a: string, b: string, x: string, y: string, folder: bool)
    requires NameOk(a) && NameOk(b) && O.Less(a, b)
    requires if folder then prefix + a + "/" <= x else x == prefix + a
    requires ComesFrom(y, prefix, b)
    ensures if folder && Shadows(a, b) then O.Less(y, x) else O.Less(x, y)
  {
    var (s, t) := (x[|prefix| + |a|..], y[|prefix| + |b|..]);
    assert x == prefix + (a + s) && y == prefix + (b + t);
    O.LessAfterPrefix(prefix, a + s, b + t);
    O.LessAfterPrefix(prefix, b + t, a + s);
    if a <= b {
      var r := b[|a|..];
      assert b == a + r && r != "" by {
        if r == "" { assert a == b; O.LessIrreflexive(a); }
      }
      assert b + t == a + (r + t);
      O.LessAfterPrefix(a, s, r + t);
      O.LessAfterPrefix(a, r + t, s);
      assert r[0] in b;
      if folder {
        assert s[0] == x[|prefix| + |a|] == (prefix + a + "/")[|prefix| + |a|] == '/';
      }
    } else {
      O.LessBeforeSuffix(a, b, s, t);
    }
  }

  /** Every path of `a` is below every path of `b`. */
  predicate AllBelow(a: seq<Record>, b: seq<Record>) {
    forall i, j :: 0 <= i < |a| && 0 <= j < |b| ==> O.Less(a[i].path, b[j].path)
  }

  lemma AscendingConcat(a: seq<Record>, b: seq<Record>)
    ensures Ascending(a + b) <==> Ascending(a) && Ascending(b) && AllBelow(a, b)
  {
    hide O.Less;
    var c := a + b;
    if Ascending(c) {
      forall i, j | 0 <= i < j < |a| ensures O.Less(a[i].path, a[j].path) {
        assert c[i] == a[i] && c[j] == a[j];
      }
      forall i, j | 0 <= i < j < |b| ensures O.Less(b[i].path, b[j].path) {
        assert c[|a| + i] == b[i] && c[|a| + j] == b[j];
      }
      forall i, j | 0 <= i < |a| && 0 <= j < |b| ensures O.Less(a[i].path, b[j].path) {
        assert c[i] == a[i] && c[|a| + j] == b[j];
      }
    }
  }

  lemma BelowConcat(a: seq<Record>, b: seq<Record>, c: seq<Record>)
    ensures AllBelow(a, b + c) <==> AllBelow(a, b) && AllBelow(a, c)
  {
    hide O.Less;
    var d := b + c;
    if AllBelow(a, d) {
      forall i, j | 0 <= i < |a| && 0 <= j < |b| ensures O.Less(a[i].path, b[j].path) {
        assert d[j] == b[j];
      }
      forall i, j | 0 <= i < |a| && 0 <= j < |c| ensures O.Less(a[i].path, c[j].path) {
        assert d[|b| + j] == c[j];
      }
    }
  }

  /** One entry against a later one. */
  lemma {:induction false} EntryBelowEntry(prefix: string, a: string, x: Item, b: string, y: Item)
    requires NameOk(a) && NameOk(b) && O.Less(a, b)
    ensures AllBelow(Records(Cons(a, x, Nil), prefix), Records(Cons(b, y, Nil), prefix))
       <==> !(x.Folder? && YieldsHere(x) && YieldsHere(y) && Shadows(a, b))
  {
    var (p, q) := (Records(Cons(a, x, Nil), prefix), Records(Cons(b, y, Nil), prefix));
    YieldsExactly(Cons(a, x, Nil), prefix);
    YieldsExactly(Cons(b, y, Nil), prefix);
    OneEntry(a, x, prefix);
    forall i, j | 0 <= i < |p| && 0 <= j < |q|
      ensures O.Less(p[i].path, q[j].path) <==> !(x.Folder? && Shadows(a, b))
    {
      HeadComesFrom(a, x, prefix, i);
      HeadComesFrom(b, y, prefix, j);
      LaterName(prefix, a, b, p[i].path, q[j].path, x.Folder?);
      hide O.Less;
      if x.Folder? && Shadows(a, b) && O.Less(p[i].path, q[j].path) {
        O.LessTransitive(p[i].path, q[j].path, p[i].path);
        O.LessIrreflexive(p[i].path);
      }
    }
    hide O.Less, Records;
    if x.Folder? && YieldsHere(x) && YieldsHere(y) && Shadows(a, b) {
      assert !O.Less(p[0].path, q[0].path);
    }
  }

  /** One entry against all later ones. */
  lemma {:induction false} EntryBelowRest(prefix: string, a: string, x: Item, rest: Tree)
    requires NameOk(a) && AllAbove(a, rest) && WellFormed(rest)
    ensures AllBelow(Records(Cons(a, x, Nil), prefix), Records(rest, prefix))
       <==> (x.Folder? && YieldsHere(x) ==> Unshadowed(a, rest))
    decreases rest
  {
    var here := Records(Cons(a, x, Nil), prefix);
    match rest
    case Nil =>
      assert Records(rest, prefix) == [];
    case Cons(b, y, more) =>
      Split(rest, prefix);
      BelowConcat(here, Records(Cons(b, y, Nil), prefix), Records(more, prefix));
      EntryBelowEntry(prefix, a, x, b, y);
      EntryBelowRest(prefix, a, x, more);
  }

  /** The walk lists paths in path order exactly if no yielding folder is shadowed by a yielding
      sibling, at any depth. */
  lemma {:induction false} WalkOrderIsPathOrder(tree: Tree, prefix: string)
    requires WellFormed(tree)
    ensures Ascending(Records(tree, prefix)) <==> NoClash(tree)
    decreases tree
  {
    match tree
    case Nil =>
    case Cons(name, item, rest) =>
      Split(tree, prefix);
      OneEntry(name, item, prefix);
      AscendingConcat(Records(Cons(name, item, Nil), prefix), Records(rest, prefix));
      EntryBelowRest(prefix, name, item, rest);
      WalkOrderIsPathOrder(rest, prefix);
      if item.Folder? {
        WalkOrderIsPathOrder(item.tree, prefix + name + "/");
      }
  }

  // ---------------------------------------------------------------- the evidence store

  /** The snapshot id digests exactly this; digests are injective. */
  datatype Payload = Payload(identity: string, profile: string, files: seq<Record>)

  datatype Manifest = Manifest(id: Payload, identity: string, profile: string, files: seq<Record>)

  /** Sealed directories and manifests by snapshot id. */
  datatype Evidence = Evidence(snapshots: map<Payload, map<string, Data>>, manifests: map<Payload, Manifest>)

  /** A parent step at position `i` of a path. */
  predicate ParentStepAt(path: string, i: nat) {
    && i + 2 <= |path| && path[i] == '.' && path[i + 1] == '.'
    && (i == 0 || path[i - 1] == '/') && (i + 2 == |path| || path[i + 2] == '/')
  }

  predicate PathOk(path: string) {
    path != "" && path[0] != '/' && !exists i :: 0 <= i < |path| && ParentStepAt(path, i)
  }

  /** The segments of the first `n` characters, the last one still open. */
  function Segments(path: string, n: nat): (s: seq<string>)
    requires n <= |path|
    ensures s != []
  {
    if n == 0 then [""] else
    var s := Segments(path, n - 1);
    if path[n - 1] == '/' then s + [""] else s[|s| - 1 := s[|s| - 1] + [path[n - 1]]]
  }

  /** Where the open segment starts. */
  function SegmentStart(path: string, n: nat): (r: nat)
    requires n <= |path|
    ensures r <= n && (r == 0 || path[r - 1] == '/') && forall k :: r <= k < n ==> path[k] != '/'
  {
    if n == 0 then 0 else if path[n - 1] == '/' then n else SegmentStart(path, n - 1)
  }

  /** A parent step whose separator is among the first `n` characters. */
  predicate ClosedStep(path: string, n: nat, i: nat) {
    i + 2 < n <= |path| && ParentStepAt(path, i)
  }

  ghost predicate AnyClosed(path: string, n: nat) {
    exists i: nat :: ClosedStep(path, n, i)
  }

  /** A separator closes the open segment; any other character extends it. */
  lemma NextCharacter(path: string, n: nat)
    requires n < |path|
    ensures AnyClosed(path, n + 1) <==>
              AnyClosed(path, n) || (path[n] == '/' && path[SegmentStart(path, n)..n] == "..")
  {
    var j := SegmentStart(path, n);
    if path[n] == '/' && path[j..n] == ".." {
      assert path[j..n][0] == path[j] && path[j..n][1] == path[j + 1] && n == j + 2;
      assert ClosedStep(path, n + 1, j);
    }
    if AnyClosed(path, n + 1) {
      var i: nat :| ClosedStep(path, n + 1, i);
      if i + 2 == n {
        assert path[n] == '/' && j == i;
      } else {
        assert ClosedStep(path, n, i);
      }
    }
    if AnyClosed(path, n) {
      var i: nat :| ClosedStep(path, n, i);
      assert ClosedStep(path, n + 1, i);
    }
  }

  lemma NextSegments(path: string, n: nat)
    requires n < |path|
    ensures var (was, s) := (Segments(path, n), Segments(path, n + 1));
            if path[n] == '/' then s[..|s| - 1] == was && s[|s| - 1] == path[n + 1..n + 1]
            else s[..|s| - 1] == was[..|was| - 1] && s[|s| - 1] == was[|was| - 1] + [path[n]]
    ensures SegmentStart(path, n + 1) == if path[n] == '/' then n + 1 else SegmentStart(path, n)
  {
  }

  lemma {:induction false} ParentSegments(path: string, n: nat)
    requires n <= |path|
    ensures var (s, j) := (Segments(path, n), SegmentStart(path, n));
            s[|s| - 1] == path[j..n] && (".." in s[..|s| - 1] <==> AnyClosed(path, n))
  {
    if n == 0 {
      NothingClosed(path);
    } else {
      var m := n - 1;
      ParentSegments(path, m);
      NextCharacter(path, m);
      NextSegments(path, m);
      hide *;
      var (was, j) := (Segments(path, m), SegmentStart(path, m));
      if path[m] == '/' {
        InAllOrLast(was, "..");
      } else {
        assert path[j..n] == path[j..m] + [path[m]];
      }
    }
  }

  lemma InAllOrLast<T>(s: seq<T>, x: T)
    requires s != []
    ensures x in s <==> x in s[..|s| - 1] || s[|s| - 1] == x
  {
    assert s == s[..|s| - 1] + [s[|s| - 1]];
  }

  lemma NothingClosed(path: string)
    ensures !AnyClosed(path, 0)
  {
  }

  /** A path is safe exactly if it is relative, not empty, and no segment of it is a parent step. */
  lemma {:induction false} PathOkExactly(path: string)
    ensures PathOk(path) <==> path != "" && path[0] != '/' && ".." !in Segments(path, |path|)
  {
    var (n, s, j) := (|path|, Segments(path, |path|), SegmentStart(path, |path|));
    ParentSegments(path, n);
    assert s == s[..|s| - 1] + [path[j..n]];
    if path[j..n] == ".." {
      assert path[j..n][0] == path[j] && path[j..n][1] == path[j + 1];
      assert ParentStepAt(path, j);
    }
    forall i: nat | i < n && ParentStepAt(path, i) ensures path[j..n] == ".." || AnyClosed(path, n) {
      assert i + 2 < n ==> ClosedStep(path, n, i);
      assert i + 2 == n ==> j == i;
    }
  }

  predicate DistinctPaths(files: seq<Record>) {
    forall i, j :: 0 <= i < j < |files| ==> files[i].path != files[j].path
  }

  function FileMap(files: seq<Record>): map<string, Data> {
    Copied(map[], files, |files|)
  }

  /** `resolve_snapshot` and `_verify_sealed_files`: the file map of an intact snapshot. */
  ghost predicate Resolves(e: Evidence, id: Payload, profile: string) {
    && id in e.manifests && id in e.snapshots
    && var m := e.manifests[id];
       && m.id == id && m.profile == profile && m.files != []
       && (forall i :: 0 <= i < |m.files| ==> PathOk(m.files[i].path)) && DistinctPaths(m.files)
       && Ascending(m.files)
       && Payload(m.identity, m.profile, m.files) == id
       && e.snapshots[id] == FileMap(m.files)
  }

  /** What is stored under an id was sealed for it. */
  ghost predicate Intact(e: Evidence) {
    && (forall id :: id in e.snapshots ==> e.snapshots[id] == FileMap(id.files))
    && (forall id :: id in e.manifests ==> e.manifests[id] == Manifest(id, id.identity, id.profile, id.files))
  }

  function Published(e: Evidence, id: Payload): Evidence {
    Evidence(if id in e.snapshots then e.snapshots else e.snapshots[id := FileMap(id.files)],
             if id in e.manifests then e.manifests
             else e.manifests[id := Manifest(id, id.identity, id.profile, id.files)])
  }

  /** `seal_registered_root`, whose last act is to resolve what it published. */
  ghost predicate Seals(e: Evidence, tree: Tree, identity: string, profile: string) {
    && !Violates(tree) && Records(tree, "") != []
    && var id := Payload(identity, profile, Records(tree, "")); Resolves(Published(e, id), id, profile)
  }

  /** A prefix made of proper names holds no parent step and ends with a separator. */
  predicate PrefixOk(prefix: string) {
    || prefix == ""
    || (prefix[0] != '/' && prefix[|prefix| - 1] == '/'
        && forall i :: 0 <= i < |prefix| ==> !ParentStepAt(prefix, i))
  }

  lemma {:induction false} JoinedPathOk(prefix: string, name: string)
    requires PrefixOk(prefix) && NameOk(name)
    ensures PathOk(prefix + name) && PrefixOk(prefix + name + "/")
  {
    var path := prefix + name;
    forall i | 0 <= i < |path| ensures !ParentStepAt(path, i) && !ParentStepAt(path + "/", i) {
      NoParentStep(prefix, name, i);
    }
    forall i | 0 <= i < |path + "/"| ensures !ParentStepAt(path + "/", i) {
      if i < |path| {
        NoParentStep(prefix, name, i);
      }
    }
    assert path[0] != '/' by {
      if prefix == "" { assert path[0] == name[0] && name[0] in name; } else { assert path[0] == prefix[0]; }
    }
  }

  lemma {:induction false} NoParentStep(prefix: string, name: string, i: nat)
    requires PrefixOk(prefix) && NameOk(name) && i < |prefix + name|
    ensures !ParentStepAt(prefix + name, i) && !ParentStepAt(prefix + name + "/", i)
  {
    var path := prefix + name;
    assert forall k :: 0 <= k < |name| ==> path[|prefix| + k] == name[k] && name[k] in name;
    if i < |prefix| {
      assert !ParentStepAt(prefix, i);
    } else if i == |prefix| && |name| == 2 {
      assert name == [name[0], name[1]];
    }
  }

  lemma {:induction false} PathsOk(tree: Tree, prefix: string)
    requires WellFormed(tree) && PrefixOk(prefix)
    ensures forall k :: 0 <= k < |Records(tree, prefix)| ==> PathOk(Records(tree, prefix)[k].path)
    decreases tree
  {
    if tree.Cons? {
      Split(tree, prefix);
      OneEntry(tree.name, tree.item, prefix);
      JoinedPathOk(prefix, tree.name);
      PathsOk(tree.rest, prefix);
      if tree.item.Folder? {
        PathsOk(tree.item.tree, prefix + tree.name + "/");
      }
    }
  }

  lemma AscendingIsDistinct(files: seq<Record>)
    requires Ascending(files)
    ensures DistinctPaths(files)
  {
    forall i, j | 0 <= i < j < |files| ensures files[i].path != files[j].path {
      O.LessIrreflexive(files[i].path);
    }
  }

  /** Sealing then resolving succeeds exactly for an admissible tree with something to admit in which no
      yielding folder has a yielding sibling that shadows it. */
  lemma SealResolvesExactly(e: Evidence, tree: Tree, identity: string, profile: string)
    requires Intact(e) && WellFormed(tree)
    ensures Seals(e, tree, identity, profile) <==> !Violates(tree) && Yields(tree) && NoClash(tree)
  {
    var files := Records(tree, "");
    YieldsExactly(tree, "");
    PathsOk(tree, "");
    WalkOrderIsPathOrder(tree, "");
    hide Records, WellFormed, NoClash, Violates, Copied, PathOk, Ascending;
    if Ascending(files) {
      AscendingIsDistinct(files);
    }
  }

  /** And what resolves is exactly the admitted file map. */
  lemma SealedFilesExact(e: Evidence, tree: Tree, identity: string, profile: string)
    requires Intact(e) && Seals(e, tree, identity, profile)
    ensures var (id, files) := (Payload(identity, profile, Records(tree, "")), Records(tree, ""));
            && Intact(Published(e, id)) && e.snapshots.Keys <= Published(e, id).snapshots.Keys
            && (forall path :: path in Published(e, id).snapshots[id]
                 <==> exists k :: 0 <= k < |files| && files[k].path == path)
            && (forall k :: 0 <= k < |files| ==> Published(e, id).snapshots[id][files[k].path] == files[k].data)
  {
    var files := Records(tree, "");
    hide Records, Violates, PathOk, Ascending;
    FileMapExact(files, |files|);
  }

  lemma {:induction false} FileMapExact(files: seq<Record>, n: nat)
    requires DistinctPaths(files) && n <= |files|
    ensures forall path :: path in Copied(map[], files, n) <==> exists k :: 0 <= k < n && files[k].path == path
    ensures forall k :: 0 <= k < n ==> Copied(map[], files, n)[files[k].path] == files[k].data
  {
    if n > 0 {
      FileMapExact(files, n - 1);
    }
  }

  /** The stored files are those of the list: these paths with these contents, and no others. */
  ghost predicate Holds(stored: map<string, Data>, files: seq<Record>) {
    && (forall path :: path in stored <==> exists k :: 0 <= k < |files| && files[k].path == path)
    && (forall k :: 0 <= k < |files| && files[k].path in stored ==> stored[files[k].path] == files[k].data)
  }

  lemma HoldsExactly(stored: map<string, Data>, files: seq<Record>)
    requires DistinctPaths(files)
    ensures stored == FileMap(files) <==> Holds(stored, files)
  {
    FileMapExact(files, |files|);
    hide Copied;
    if Holds(stored, files) {
      assert forall path :: path in stored <==> path in FileMap(files);
      forall path | path in stored ensures stored[path] == FileMap(files)[path] {
        var k :| 0 <= k < |files| && files[k].path == path;
      }
    }
  }

  /** Whatever the store holds: a snapshot resolves exactly if its manifest is the one its id digests,
      it was made for the profile that asks, its inventory is a non-empty list of safe paths in order,
      and the stored files are those of the inventory, each with its contents. */
  lemma {:induction false} ResolvesExactly(e: Evidence, id: Payload, profile: string)
    ensures Resolves(e, id, profile) <==>
      && id in e.manifests && e.manifests[id] == Manifest(id, id.identity, id.profile, id.files)
      && id.profile == profile && id.files != [] && Ascending(id.files)
      && (forall i :: 0 <= i < |id.files| ==> PathOk(id.files[i].path))
      && id in e.snapshots && Holds(e.snapshots[id], id.files)
  {
    if Ascending(id.files) {
      AscendingIsDistinct(id.files);
      if id in e.snapshots {
        HoldsExactly(e.snapshots[id], id.files);
      }
    }
    hide Ascending, Holds, FileMap, PathOk;
  }

  /** What was sealed and resolves does not resolve any more once its stored files are altered in any
      way: changed, added or removed. */
  lemma {:induction false} AlteredNeverResolves(e: Evidence, altered: Evidence, id: Payload, profile: string)
    requires Resolves(e, id, profile) && altered.manifests == e.manifests
    ensures Resolves(altered, id, profile) <==> id in altered.snapshots && altered.snapshots[id] == e.snapshots[id]
  {
  }

  /** The smallest failing family: an admitted file below `auth/` beside an admitted `auth.ts`. */
  lemma {:induction false} FolderBesideFile(e: Evidence, identity: string, profile: string, inner: string, a: Data,
                                            b: Data)
    requires Intact(e) && NameOk(inner)
    ensures var tree := Cons("auth", Folder(Cons(inner, Admitted(a), Nil)), Cons("auth.ts", Admitted(b), Nil));
            WellFormed(tree) && !Violates(tree) && Yields(tree) && !Seals(e, tree, identity, profile)
  {
    var rest := Cons("auth.ts", Admitted(b), Nil);
    var folder := Cons(inner, Admitted(a), Nil);
    var tree := Cons("auth", Folder(folder), rest);
    assert "auth.ts"[..4] == "auth" && "auth" <= "auth.ts" && "auth.ts"[4] == '.';
    O.PrefixIsLess("auth", "auth.ts");
    assert NameOk("auth") && NameOk("auth.ts");
    assert AllAbove("auth.ts", Nil) && AllAbove("auth", rest) && WellFormed(rest) && WellFormed(folder);
    assert Shadows("auth", "auth.ts");
    assert !Unshadowed("auth", rest) && Yields(folder) && !NoClash(tree);
    assert !Violates(Nil) && !Violates(rest) && !Violates(folder);
    hide Records, Resolves;
    SealResolvesExactly(e, tree, identity, profile);
  }

  // ---------------------------------------------------------------- the store as an object

  lemma {:induction false} AdjacentAscending(files: seq<Record>, n: nat)
    requires n <= |files| && forall i :: 0 < i < n ==> O.Less(files[i - 1].path, files[i].path)
    ensures Ascending(files[..n])
  {
    hide O.Less;
    if n > 0 {
      AdjacentAscending(files, n - 1);
      forall i | 0 <= i < n - 1 ensures O.Less(files[i].path, files[n - 1].path) {
        if i < n - 2 {
          assert files[..n - 1][i] == files[i] && files[..n - 1][n - 2] == files[n - 2];
          O.LessTransitive(files[i].path, files[n - 2].path, files[n - 1].path);
        }
      }
      forall i, j | 0 <= i < j < n ensures O.Less(files[..n][i].path, files[..n][j].path) {
        assert j < n - 1 ==> files[..n - 1][i] == files[i] && files[..n - 1][j] == files[j];
      }
    }
  }

  /** The entry loop of `resolve_snapshot` and the comparison with the sorted inventory. */
  method CheckInventory(files: seq<Record>) returns (ok: bool)
    ensures ok <==>
              && files != [] && (forall i :: 0 <= i < |files| ==> PathOk(files[i].path))
              && DistinctPaths(files) && Ascending(files)
  {
    var paths: set<string> := {};
    for i := 0 to |files|
      invariant forall path :: path in paths <==> exists k :: 0 <= k < i && files[k].path == path
      invariant forall k :: 0 <= k < i ==> PathOk(files[k].path)
      invariant forall j, k :: 0 <= j < k < i ==> files[j].path != files[k].path
    {
      if !PathOk(files[i].path) || files[i].path in paths {
        return false;
      }
      paths := paths + {files[i].path};
    }
    hide PathOk, O.Less;
    if files == [] {
      return false;
    }
    for i := 1 to |files|
      invariant forall k :: 0 < k < i ==> O.Less(files[k - 1].path, files[k].path)
    {
      if !O.Less(files[i - 1].path, files[i].path) {
        return false;
      }
    }
    AdjacentAscending(files, |files|);
    assert files[..|files|] == files;
    ok := true;
  }

  class EvidenceRoot {
    var snapshots: map<Payload, map<string, Data>>
    var manifests: map<Payload, Manifest>

    ghost function Contents(): Evidence
      reads this
    {
      Evidence(snapshots, manifests)
    }

    constructor ()
      ensures Contents() == Evidence(map[], map[]) && Intact(Contents())
    {
      snapshots, manifests := map[], map[];
    }

    method ResolveSnapshot(id: Payload, profile: string) returns (files: Option<map<string, Data>>)
      ensures files.Some? <==> Resolves(Contents(), id, profile)
      ensures files.Some? ==> files.value == snapshots[id]
    {
      if id !in manifests || id !in snapshots {
        return None;
      }
      var m := manifests[id];
      if m.id != id || m.profile != profile {
        return None;
      }
      var ok := CheckInventory(m.files);
      hide PathOk, Ascending, Copied;
      if !ok || Payload(m.identity, m.profile, m.files) != id {
        return None;
      }
      files := if snapshots[id] == FileMap(m.files) then Some(snapshots[id]) else None;
    }

    /** The snapshot and its manifest are published before the final resolution may refuse them. */
    method SealRegisteredRoot(tree: Tree, identity: string, profile: string) returns (ok: bool)
      modifies this
      ensures ok <==> Seals(old(Contents()), tree, identity, profile)
      ensures Contents() == if Violates(tree) || Records(tree, "") == [] then old(Contents())
                            else Published(old(Contents()), Payload(identity, profile, Records(tree, "")))
    {
      hide Records, Violates, Resolves, Copied;
      var entries, copied := CopyDirectory(tree, "", map[]);
      if entries.None? || entries.value == [] {
        return false;
      }
      var id := Payload(identity, profile, entries.value);
      if id !in snapshots {
        snapshots := snapshots[id := copied];
      }
      if id !in manifests {
        manifests := manifests[id := Manifest(id, identity, profile, entries.value)];
      }
      var resolved := ResolveSnapshot(id, profile);
      ok := resolved.Some?;
    }
  }
}
