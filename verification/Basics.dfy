/** Values shared by the protocol models. */
module Basics {

  datatype Option<+T> = None | Some(value: T)

  /** A SHA-256 hex digest.  Digests are only compared; equal digests mean equal bytes. */
  datatype Digest = Digest(text: string)

  /** A run-relative file path. */
  datatype Path = Path(text: string)

  /** A file named together with the digest of its bytes. */
  datatype FileRef = FileRef(path: Path, sha256: Digest)

  function Min(a: nat, b: nat): nat {
    if a <= b then a else b
  }

  predicate Distinct<T(==)>(s: seq<T>) {
    forall i, j :: 0 <= i < j < |s| ==> s[i] != s[j]
  }

  lemma {:induction false} SubsetSize<T>(a: set<T>, b: set<T>)
    requires a <= b
    ensures |a| <= |b| && (|a| == |b| <==> a == b)
  {
    if x :| x in a {
      SubsetSize(a - {x}, b - {x});
      assert a == (a - {x}) + {x} && b == (b - {x}) + {x};
    }
  }

  /** A list without duplicates is as long as its set of elements. */
  lemma {:induction false} DistinctSize<T>(s: seq<T>)
    requires Distinct(s)
    ensures |set x | x in s| == |s|
  {
    if s != [] {
      var (init, last) := (s[..|s| - 1], s[|s| - 1]);
      DistinctSize(init);
      assert (set x | x in s) == (set x | x in init) + {last};
    }
  }
}
