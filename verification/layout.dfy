/**
 Sequence-level building blocks of the replay buffer's sampling step: drawing
 stored entries at caller-chosen positions, and flattening a sequence of
 per-agent rows into one row-major sequence whose leading axis is
 (experience, agent).
 */
module Layout {

  /** No position occurs twice in `picks`. */
  predicate Distinct(picks: seq<nat>) {
    forall i, j :: 0 <= i < j < |picks| ==> picks[i] != picks[j]
  }

  /** Every position in `picks` addresses an entry of a sequence of length `size`. */
  predicate InRange(picks: seq<nat>, size: nat) {
    forall i :: 0 <= i < |picks| ==> picks[i] < size
  }

  /**
   `picks` is one outcome of drawing `k` entries without replacement from a
   population of `size`: exactly `k` pairwise-distinct positions, all in range.
   */
  predicate IsDraw(picks: seq<nat>, size: nat, k: nat) {
    |picks| == k && InRange(picks, size) && Distinct(picks)
  }

  /** The entries of `mem` at the positions `picks`, in draw order. */
  function Gather<T>(mem: seq<T>, picks: seq<nat>): (r: seq<T>)
    requires InRange(picks, |mem|)
    ensures |r| == |picks|
    ensures forall i :: 0 <= i < |picks| ==> r[i] == mem[picks[i]]
  {
    seq(|picks|, i requires 0 <= i < |picks| => mem[picks[i]])
  }

  /**
   Taking the first pick's entry out of the population and renumbering the
   remaining picks leaves a smaller draw of the same entries.
   */
  lemma DropFirstPick<T>(mem: seq<T>, picks: seq<nat>) returns (mem': seq<T>, rest': seq<nat>)
    requires picks != [] && InRange(picks, |mem|) && Distinct(picks)
    ensures |rest'| == |picks| - 1 && InRange(rest', |mem'|) && Distinct(rest')
    ensures Gather(mem', rest') == Gather(mem, picks[1..])
    ensures multiset(mem) == multiset(mem') + multiset{mem[picks[0]]}
  {
    var p := picks[0];
    var rest := picks[1..];
    mem' := mem[..p] + mem[p + 1..];
    rest' := seq(|rest|, i requires 0 <= i < |rest| =>
               if rest[i] < p then rest[i] else rest[i] - 1);
    forall i | 0 <= i < |rest|
      ensures rest'[i] < |mem'| && mem'[rest'[i]] == mem[rest[i]]
    {
      assert rest[i] == picks[i + 1] && picks[i + 1] != picks[0];
    }
    forall i, j | 0 <= i < j < |rest'|
      ensures rest'[i] != rest'[j]
    {
      assert picks[i + 1] != picks[j + 1] && picks[i + 1] != p && picks[j + 1] != p;
    }
    assert Gather(mem', rest') == Gather(mem, rest);
    assert mem == mem[..p] + [mem[p]] + mem[p + 1..];
  }

  /**
   Drawing at distinct positions never yields an entry more often than it is
   stored: the drawn entries form a sub-multiset of the population.
   */
  lemma {:induction false} GatherWithoutReplacement<T>(mem: seq<T>, picks: seq<nat>)
    requires InRange(picks, |mem|)
    requires Distinct(picks)
    ensures multiset(Gather(mem, picks)) <= multiset(mem)
    decreases |picks|
  {
    if picks != [] {
      var mem', rest' := DropFirstPick(mem, picks);
      GatherWithoutReplacement(mem', rest');
      assert Gather(mem, picks) == [mem[picks[0]]] + Gather(mem, picks[1..]);
    }
  }

  /** Every row of `cols` holds at least `n` entries. */
  predicate Covers<T>(cols: seq<seq<T>>, n: nat) {
    forall i :: 0 <= i < |cols| ==> n <= |cols[i]|
  }

  /** Multiplying by a natural number preserves order. */
  lemma MulMonotonic(a: nat, b: nat, n: nat)
    requires a <= b
    ensures a * n <= b * n
  {
    assert b * n == a * n + (b - a) * n;
  }

  /** Row `i` of `m` rows of width `n` lies inside the flattened length. */
  lemma RowInside(i: nat, j: nat, m: nat, n: nat)
    requires i < m && j < n
    ensures i * n + j < m * n
  {
    MulMonotonic(i + 1, m, n);
    assert (i + 1) * n == i * n + n;
  }

  /** Entry `j` of row `i` sits at this position of a row-major sequence of width `n`. */
  function Offset(i: nat, n: nat, j: nat): nat {
    i * n + j
  }

  /** `r` lists the first `n` entries of every row of `cols`, row after row. */
  ghost predicate RowMajor<T>(r: seq<T>, cols: seq<seq<T>>, n: nat)
    requires Covers(cols, n)
  {
    && |r| == |cols| * n
    && forall i, j :: 0 <= i < |cols| && 0 <= j < n ==>
         Offset(i, n, j) < |r| && r[Offset(i, n, j)] == cols[i][j]
  }

  /** Prepending one row of width `n` to a row-major sequence keeps it row-major. */
  lemma RowMajorCons<T>(cols: seq<seq<T>>, n: nat, rest: seq<T>)
    requires cols != [] && Covers(cols, n)
    requires RowMajor(rest, cols[1..], n)
    ensures RowMajor(cols[0][..n] + rest, cols, n)
  {
    var r := cols[0][..n] + rest;
    assert |cols| * n == n + (|cols| - 1) * n;
    forall i, j | 0 <= i < |cols| && 0 <= j < n
      ensures Offset(i, n, j) < |r| && r[Offset(i, n, j)] == cols[i][j]
    {
      RowInside(i, j, |cols|, n);
      if i > 0 {
        assert Offset(i, n, j) == n + Offset(i - 1, n, j);
        assert cols[1..][i - 1] == cols[i];
      }
    }
  }

  /**
   Row-major flattening: the first `n` entries of `cols[0]`, then of
   `cols[1]`, and so on, so that entry `j` of row `i` lands at `i * n + j`.
   */
  function Flatten<T>(cols: seq<seq<T>>, n: nat): (r: seq<T>)
    requires Covers(cols, n)
    ensures |r| == |cols| * n
    ensures forall i, j :: 0 <= i < |cols| && 0 <= j < n ==>
              Offset(i, n, j) < |r| && r[Offset(i, n, j)] == cols[i][j]
  {
    if cols == [] then []
    else
      var rest := Flatten(cols[1..], n);
      RowMajorCons(cols, n, rest);
      cols[0][..n] + rest
  }

  /** A position below `m * n` splits into a row below `m` and a column below `n`. */
  lemma SplitOffset(k: nat, m: nat, n: nat)
    requires k < m * n
    ensures 0 < n && k / n < m && k % n < n
    ensures k == Offset(k / n, n, k % n)
  {
    if k / n >= m {
      MulMonotonic(m, k / n, n);
    }
  }

  /** Flattening peels off the first row. */
  lemma FlattenCons<T>(cols: seq<seq<T>>, n: nat)
    requires cols != [] && Covers(cols, n)
    ensures Flatten(cols, n) == cols[0][..n] + Flatten(cols[1..], n)
  {
  }

  /**
   Conversely, every flattened row comes from an existing input row: position
   `k` holds entry `k % n` of row `k / n`.
   */
  lemma FlattenOrigin<T>(cols: seq<seq<T>>, n: nat, k: nat)
    requires Covers(cols, n)
    requires k < |Flatten(cols, n)|
    ensures 0 < n && k / n < |cols|
    ensures Flatten(cols, n)[k] == cols[k / n][k % n]
  {
    RowMajorOrigin(Flatten(cols, n), cols, n, k);
  }

  /** Position `k` of a row-major sequence is entry `k % n` of row `k / n`. */
  lemma RowMajorOrigin<T>(r: seq<T>, cols: seq<seq<T>>, n: nat, k: nat)
    requires Covers(cols, n) && RowMajor(r, cols, n)
    requires k < |r|
    ensures 0 < n && k / n < |cols| && k % n < n
    ensures r[k] == cols[k / n][k % n]
  {
    SplitOffset(k, |cols|, n);
    var i, j := k / n, k % n;
    assert r[Offset(i, n, j)] == cols[i][j];
  }
}
