/**
 * Order of first appearance: both sectioning routines (chat messages by date,
 * friends by initial) create a section the first time they meet its key.
 */
module Sequences {

  predicate Distinct<T(==)>(s: seq<T>) {
    forall i, j :: 0 <= i < j < |s| ==> s[i] != s[j]
  }

  /** Dropping the head of a distinct sequence leaves a distinct sequence without the head. */
  lemma DistinctTail<T>(s: seq<T>)
    requires Distinct(s) && |s| > 0
    ensures Distinct(s[1..]) && s[0] !in s[1..]
  {
    forall i, j | 0 <= i < j < |s[1..]| ensures s[1..][i] != s[1..][j] {
      assert s[1..][i] == s[i + 1] && s[1..][j] == s[j + 1];
    }
    forall j | 0 <= j < |s[1..]| ensures s[1..][j] != s[0] {
      assert s[1..][j] == s[j + 1];
    }
  }

  /** The index of the first occurrence of `x` in `s`. */
  function FirstIndex<T(==)>(s: seq<T>, x: T): (k: nat)
    requires x in s
    ensures k < |s| && s[k] == x
    ensures forall j :: 0 <= j < k ==> s[j] != x
  {
    if s[0] == x then 0 else 1 + FirstIndex(s[1..], x)
  }

  /** The distinct elements of `s`, in the order in which each first occurs. */
  function Dedup<T(==)>(s: seq<T>): seq<T> {
    if s == [] then []
    else
      var prefix := Dedup(s[..|s| - 1]);
      if s[|s| - 1] in prefix then prefix else prefix + [s[|s| - 1]]
  }

  /** Appending to a sequence does not move the first occurrence of an element already in it. */
  lemma {:induction false} FirstIndexAppend<T>(s: seq<T>, x: T, y: T)
    requires y in s
    ensures FirstIndex(s + [x], y) == FirstIndex(s, y)
  {
    if s[0] != y {
      assert (s + [x])[1..] == s[1..] + [x];
      FirstIndexAppend(s[1..], x, y);
    }
  }

  /**
   * Dedup keeps exactly the elements of `s`, each once, ordered by first
   * occurrence in `s`.
   */
  lemma {:induction false} DedupSpec<T>(s: seq<T>)
    ensures Distinct(Dedup(s))
    ensures forall x :: x in Dedup(s) <==> x in s
    ensures forall i, j :: 0 <= i < j < |Dedup(s)| ==>
      FirstIndex(s, Dedup(s)[i]) < FirstIndex(s, Dedup(s)[j])
  {
    if s != [] {
      var init, last := s[..|s| - 1], s[|s| - 1];
      assert s == init + [last];
      DedupSpec(init);
      var d := Dedup(init);
      forall x | x in init ensures FirstIndex(s, x) == FirstIndex(init, x) {
        FirstIndexAppend(init, last, x);
      }
      if last !in d {
        assert last !in init;
        assert FirstIndex(s, last) == |init|;
        var d' := d + [last];
        forall i, j | 0 <= i < j < |d'|
          ensures FirstIndex(s, d'[i]) < FirstIndex(s, d'[j])
        {
          assert d'[i] == d[i];
          DedupSubset(init, d[i]);
          if j < |d| { assert d'[j] == d[j] && d[j] in d; }
        }
      } else {
        forall i | 0 <= i < |d| ensures d[i] in init {
          DedupSubset(init, d[i]);
        }
      }
    }
  }

  /** Every element Dedup keeps comes from `s`. */
  lemma {:induction false} DedupSubset<T>(s: seq<T>, x: T)
    requires x in Dedup(s)
    ensures x in s
  {
    var init := s[..|s| - 1];
    if x != s[|s| - 1] {
      assert x in Dedup(init);
      DedupSubset(init, x);
    }
  }

  /** All the pieces, one after another. */
  function Flatten<T>(ss: seq<seq<T>>): seq<T> {
    if ss == [] then [] else ss[0] + Flatten(ss[1..])
  }

  lemma {:induction false} FlattenConcat<T>(a: seq<seq<T>>, b: seq<seq<T>>)
    ensures Flatten(a + b) == Flatten(a) + Flatten(b)
  {
    if a == [] {
      assert a + b == b;
    } else {
      assert (a + b)[1..] == a[1..] + b;
      FlattenConcat(a[1..], b);
    }
  }

  /**
   * `s.slice(i, i + size)` for `i = 0, size, 2 * size, ...` while `i < s.length`:
   * consecutive pieces of `size` elements, the last one possibly shorter.
   */
  function Chunks<T>(s: seq<T>, size: nat): (pieces: seq<seq<T>>)
    requires size > 0
    decreases |s|
  {
    if s == [] then []
    else if |s| <= size then [s]
    else [s[..size]] + Chunks(s[size..], size)
  }

  /** The pieces give back the sequence. */
  lemma {:induction false} ChunksFlatten<T>(s: seq<T>, size: nat)
    requires size > 0
    ensures Flatten(Chunks(s, size)) == s
    decreases |s|
  {
    if s != [] {
      if |s| <= size {
        assert Flatten(Chunks(s, size)) == s + Flatten([]);
      } else {
        ChunksFlatten(s[size..], size);
        assert Chunks(s, size)[1..] == Chunks(s[size..], size);
        assert s == s[..size] + s[size..];
      }
    }
  }

  /**
   * There are `ceil(|s| / size)` pieces; each but the last has exactly `size`
   * elements and the last between 1 and `size`.
   */
  lemma {:induction false} ChunksSizes<T>(s: seq<T>, size: nat)
    requires size > 0
    ensures |Chunks(s, size)| == (|s| + size - 1) / size
    ensures forall k :: 0 <= k < |Chunks(s, size)| - 1 ==> |Chunks(s, size)[k]| == size
    ensures s != [] ==> 0 < |Chunks(s, size)[|Chunks(s, size)| - 1]| <= size
    decreases |s|
  {
    var c := Chunks(s, size);
    if s == [] {
    } else if |s| <= size {
      DivOne(|s| + size - 1, size);
    } else {
      var rest := s[size..];
      ChunksSizes(rest, size);
      assert c[1..] == Chunks(rest, size);
      DivStep(|rest| + size - 1, size);
      assert |s| + size - 1 == size + (|rest| + size - 1);
    }
  }

  /** The quotient is the unique `q` with `y == size * q + r` and `0 <= r < size`. */
  lemma DivUnique(y: int, size: nat, q: int, r: int)
    requires size > 0 && y == size * q + r && 0 <= r < size
    ensures y / size == q
  {
    var q', r' := y / size, y % size;
    assert y == size * q' + r';
    if q' < q {
      assert size * (q - q') == r' - r;
      MulAtLeast(size, q - q');
    } else if q < q' {
      assert size * (q' - q) == r - r';
      MulAtLeast(size, q' - q);
    }
  }

  lemma MulAtLeast(size: nat, k: int)
    requires k >= 1
    ensures size * k >= size
  {
  }

  lemma DivOne(x: int, size: nat)
    requires size > 0 && size <= x < 2 * size
    ensures x / size == 1
  {
    DivUnique(x, size, 1, x - size);
  }

  lemma DivStep(x: nat, size: nat)
    requires size > 0
    ensures (size + x) / size == 1 + x / size
  {
    DivUnique(size + x, size, 1 + x / size, x % size);
  }

  /** Piece `k` starts at index `k * size`. */
  lemma {:induction false} ChunksAt<T>(s: seq<T>, size: nat, k: nat)
    requires size > 0 && k < |Chunks(s, size)|
    ensures k * size < |s|
    ensures Chunks(s, size)[k] == s[k * size..if (k + 1) * size <= |s| then (k + 1) * size else |s|]
    decreases |s|
  {
    if k > 0 {
      assert |s| > size;
      var rest := s[size..];
      assert Chunks(s, size)[k] == Chunks(rest, size)[k - 1];
      ChunksAt(rest, size, k - 1);
      assert k * size == (k - 1) * size + size;
      assert (k + 1) * size == k * size + size;
      var e := if (k + 1) * size <= |s| then (k + 1) * size else |s|;
      assert (if k * size <= |rest| then k * size else |rest|) == e - size;
      assert rest[(k - 1) * size..e - size] == s[k * size..e];
    }
  }
}
