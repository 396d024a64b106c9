/** Small sequence utilities shared by both bundle-adjustment back ends:
    selecting the positions of flagged entries (the `xxxIdx2Opt` index
    lists of the source), ranking, and real-valued sums. */
module SeqUtil {

  function Max(a: int, b: int): int { if a >= b then a else b }
  function Min(a: int, b: int): int { if a <= b then a else b }

  /** The positions of the true entries of `flags`, in increasing order. */
  function Select(flags: seq<bool>): (r: seq<nat>)
    ensures |r| <= |flags|
    ensures forall k :: 0 <= k < |r| ==> r[k] < |flags| && flags[r[k]]
    decreases |flags|
  {
    if flags == [] then []
    else Select(flags[..|flags| - 1]) + (if flags[|flags| - 1] then [|flags| - 1] else [])
  }

  /** How many flagged entries precede position `i`: the offset of `i` in `Select(flags)`. */
  function Rank(flags: seq<bool>, i: nat): nat
    requires i <= |flags|
  {
    |Select(flags[..i])|
  }

  lemma SelectSnoc(flags: seq<bool>, i: nat)
    requires i < |flags|
    ensures Select(flags[..i + 1]) == Select(flags[..i]) + (if flags[i] then [i] else [])
  {
    assert flags[..i + 1][..i] == flags[..i];
  }

  lemma SelectSnocSet(flags: seq<bool>, i: nat)
    requires i < |flags| && flags[i]
    ensures Select(flags[..i + 1]) == Select(flags[..i]) + [i]
  {
    SelectSnoc(flags, i);
  }

  lemma SelectSnocUnset(flags: seq<bool>, i: nat)
    requires i < |flags| && !flags[i]
    ensures Select(flags[..i + 1]) == Select(flags[..i])
  {
    SelectSnoc(flags, i);
  }

  /** Every flagged position is selected, and selection is strictly increasing. */
  lemma {:induction false} SelectExact(flags: seq<bool>)
    ensures forall i :: 0 <= i < |flags| ==> (flags[i] <==> i in Select(flags))
    ensures forall k, l :: 0 <= k < l < |Select(flags)| ==> Select(flags)[k] < Select(flags)[l]
    decreases |flags|
  {
    if flags != [] {
      var n := |flags| - 1;
      var pre := flags[..n];
      SelectExact(pre);
      var sp, s := Select(pre), Select(flags);
      assert s == sp + (if flags[n] then [n] else []);
      forall i | 0 <= i < |flags|
        ensures flags[i] <==> i in s
      {
        if i < n {
          assert pre[i] == flags[i];
          assert i in s <==> i in sp;
        }
      }
      forall k, l | 0 <= k < l < |s|
        ensures s[k] < s[l]
      {
        if l < |sp| {
          assert s[k] == sp[k] && s[l] == sp[l];
        } else {
          assert s[k] == sp[k] && sp[k] < n;
        }
      }
    }
  }

  /** The selected position at offset `Rank(flags, i)` is `i` itself. */
  lemma {:induction false} SelectAtRank(flags: seq<bool>, i: nat)
    requires i < |flags| && flags[i]
    ensures Rank(flags, i) < |Select(flags)|
    ensures Select(flags)[Rank(flags, i)] == i
    decreases |flags|
  {
    var n := |flags| - 1;
    if i == n {
      assert flags[..i] == flags[..n];
    } else {
      SelectAtRank(flags[..n], i);
      assert flags[..n][..i] == flags[..i];
    }
  }

  /** Ranking within a prefix is ranking within the whole. */
  lemma RankPrefix(flags: seq<bool>, n: nat, i: nat)
    requires i <= n <= |flags|
    ensures Rank(flags[..n], i) == Rank(flags, i)
  {
    assert flags[..n][..i] == flags[..i];
  }

  /** Ranks of two different flagged positions differ. */
  lemma RankInjective(flags: seq<bool>, i: nat, j: nat)
    requires i < |flags| && j < |flags| && flags[i] && flags[j] && i != j
    ensures Rank(flags, i) != Rank(flags, j)
  {
    SelectAtRank(flags, i);
    SelectAtRank(flags, j);
  }

  /** The rank of the position found at offset `k` of the selection is `k`. */
  lemma RankOfSelected(flags: seq<bool>, k: nat)
    requires k < |Select(flags)|
    ensures Select(flags)[k] < |flags| && flags[Select(flags)[k]]
    ensures Rank(flags, Select(flags)[k]) == k
  {
    var i := Select(flags)[k];
    SelectAtRank(flags, i);
    SelectExact(flags);
  }

  /** Among the flagged positions, only the one selected at offset `k` has rank `k`. */
  lemma RankIs(flags: seq<bool>, k: nat)
    requires k < |Select(flags)|
    ensures forall j :: 0 <= j < |flags| && flags[j] ==> (Rank(flags, j) == k <==> j == Select(flags)[k])
  {
    RankOfSelected(flags, k);
    forall j | 0 <= j < |flags| && flags[j]
      ensures Rank(flags, j) == k <==> j == Select(flags)[k]
    {
      SelectAtRank(flags, j);
    }
  }

  /** A loop that visits the flagged positions in order and overwrites each with its
      value in `nw` has, after `i` steps, written exactly the positions of rank below `i`. */
  ghost predicate WrittenUpTo<T>(f: seq<bool>, i: nat, r: seq<T>, orig: seq<T>, nw: seq<T>)
  {
    |r| == |f| && |orig| == |f| && |nw| == |f| &&
    forall j :: 0 <= j < |f| ==> r[j] == (if f[j] && Rank(f, j) < i then nw[j] else orig[j])
  }

  lemma WrittenUpToStep<T>(f: seq<bool>, i: nat, r: seq<T>, orig: seq<T>, nw: seq<T>)
    requires i < |Select(f)| && WrittenUpTo(f, i, r, orig, nw)
    ensures Select(f)[i] < |f| && r[Select(f)[i]] == orig[Select(f)[i]]
    ensures WrittenUpTo(f, i + 1, r[Select(f)[i] := nw[Select(f)[i]]], orig, nw)
  {
    RankOfSelected(f, i);
    RankIs(f, i);
  }

  lemma WrittenUpToDone<T>(f: seq<bool>, r: seq<T>, orig: seq<T>, nw: seq<T>)
    requires WrittenUpTo(f, |Select(f)|, r, orig, nw)
    ensures forall j :: 0 <= j < |f| ==> r[j] == (if f[j] then nw[j] else orig[j])
  {
    forall j | 0 <= j < |f| && f[j]
      ensures Rank(f, j) < |Select(f)|
    {
      SelectAtRank(f, j);
    }
  }

  /** Sum of a sequence of reals, accumulated left to right as the source's loops do. */
  function Sum(xs: seq<real>): real
    decreases |xs|
  {
    if xs == [] then 0.0 else Sum(xs[..|xs| - 1]) + xs[|xs| - 1]
  }

  lemma {:induction false} SumAppend(xs: seq<real>, ys: seq<real>)
    ensures Sum(xs + ys) == Sum(xs) + Sum(ys)
    decreases |ys|
  {
    if ys == [] {
      assert xs + ys == xs;
    } else {
      var n := |ys| - 1;
      assert (xs + ys)[..|xs + ys| - 1] == xs + ys[..n];
      SumAppend(xs, ys[..n]);
    }
  }

  /** A sum of squares is never negative. */
  lemma {:induction false} SumNonNegative(xs: seq<real>)
    requires forall k :: 0 <= k < |xs| ==> xs[k] >= 0.0
    ensures Sum(xs) >= 0.0
    decreases |xs|
  {
    if xs != [] {
      SumNonNegative(xs[..|xs| - 1]);
    }
  }

  /** Concatenation of a sequence of sequences. */
  function Flatten<T>(ss: seq<seq<T>>): seq<T>
    decreases |ss|
  {
    if ss == [] then [] else Flatten(ss[..|ss| - 1]) + ss[|ss| - 1]
  }

  lemma {:induction false} FlattenAppend<T>(ss: seq<seq<T>>, ts: seq<seq<T>>)
    ensures Flatten(ss + ts) == Flatten(ss) + Flatten(ts)
    decreases |ts|
  {
    if ts == [] {
      assert ss + ts == ss;
    } else {
      var n := |ts| - 1;
      assert (ss + ts)[..|ss + ts| - 1] == ss + ts[..n];
      FlattenAppend(ss, ts[..n]);
    }
  }
}
