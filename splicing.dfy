/** Inserting one character into a string, as the generator does with
    `s.slice(0, p) + c + s.slice(p)`, and the relation "r is t with
    characters from a pool inserted", which repeated insertion keeps. */
module Splicing {

  /** `s` with `c` inserted before position `p`. */
  function Insert(s: string, p: nat, c: char): (r: string)
    requires p <= |s|
    ensures |r| == |s| + 1 && r[p] == c
    ensures forall i :: 0 <= i < p ==> r[i] == s[i]
    ensures forall i :: p < i < |r| ==> r[i] == s[i - 1]
    ensures multiset(r) == multiset(s) + multiset{c}
  {
    assert s == s[..p] + s[p..];
    s[..p] + [c] + s[p..]
  }

  /** Inserting before the end keeps the last character last. */
  lemma InsertKeepsLast(s: string, p: nat, c: char)
    requires p < |s|
    ensures Insert(s, p, c)[|s|] == s[|s| - 1]
  {
  }

  /** `r` is `t` with characters drawn from `pool` inserted anywhere:
      reading `r` from the left, each character either is the next one of
      `t` or comes from `pool`. */
  predicate Interleaved(t: string, r: string, pool: string)
    decreases |r|
  {
    if r == [] then t == []
    else
      || (t != [] && r[0] == t[0] && Interleaved(t[1..], r[1..], pool))
      || (r[0] in pool && Interleaved(t, r[1..], pool))
  }

  /** `idx` lists, in increasing order, positions of `r` that spell out `t`. */
  ghost predicate IsEmbedding(t: string, r: string, idx: seq<nat>)
  {
    |idx| == |t| &&
    (forall i :: 0 <= i < |idx| ==> idx[i] < |r| && r[idx[i]] == t[i]) &&
    (forall i, j :: 0 <= i < j < |idx| ==> idx[i] < idx[j])
  }

  /** Every position of `r` outside `idx` holds a character of `pool`. */
  ghost predicate OthersFrom(r: string, idx: seq<nat>, pool: string)
  {
    forall j :: 0 <= j < |r| && j !in idx ==> r[j] in pool
  }

  /** The reference formulation: `t` is a subsequence of `r`, and every
      character of `r` not used for `t` comes from `pool`. */
  ghost predicate InsertsFrom(t: string, r: string, pool: string)
  {
    exists idx :: IsEmbedding(t, r, idx) && OthersFrom(r, idx, pool)
  }

  function Shift(idx: seq<nat>, d: int): (r: seq<nat>)
    requires forall i :: 0 <= i < |idx| ==> idx[i] + d >= 0
    ensures |r| == |idx| && forall i :: 0 <= i < |idx| ==> r[i] == idx[i] + d
  {
    seq(|idx|, i requires 0 <= i < |idx| => (idx[i] + d) as nat)
  }

  lemma ShiftMembers(idx: seq<nat>, d: int, j: nat)
    requires forall i :: 0 <= i < |idx| ==> idx[i] + d >= 0
    requires j - d >= 0
    ensures j in Shift(idx, d) <==> (j - d) as nat in idx
  {
    var s := Shift(idx, d);
    if j in s {
      var i :| 0 <= i < |s| && s[i] == j;
      assert idx[i] == j - d;
    }
    if (j - d) as nat in idx {
      var i :| 0 <= i < |idx| && idx[i] == j - d;
      assert s[i] == j;
    }
  }

  /** An embedding of `t[1..]` into `r[1..]`, extended by the first
      character of each. */
  lemma EmbedMatch(t: string, r: string, pool: string, idx': seq<nat>)
    requires t != [] && r != [] && r[0] == t[0]
    requires IsEmbedding(t[1..], r[1..], idx') && OthersFrom(r[1..], idx', pool)
    ensures IsEmbedding(t, r, [0] + Shift(idx', 1)) && OthersFrom(r, [0] + Shift(idx', 1), pool)
  {
    var shifted := Shift(idx', 1);
    var idx := [0] + shifted;
    forall i | 0 <= i < |idx| ensures idx[i] < |r| && r[idx[i]] == t[i] {
      if i > 0 {
        assert idx[i] == idx'[i - 1] + 1;
        assert r[1..][idx'[i - 1]] == t[1..][i - 1];
      }
    }
    forall i, j | 0 <= i < j < |idx| ensures idx[i] < idx[j] {
      if i > 0 {
        assert idx'[i - 1] < idx'[j - 1];
      }
    }
    assert IsEmbedding(t, r, idx);
    forall j | 0 <= j < |r| && j !in idx ensures r[j] in pool {
      assert j != 0 && j !in shifted;
      ShiftMembers(idx', 1, j);
      assert r[1..][j - 1] == r[j];
    }
  }

  /** An embedding of `t` into `r[1..]`, with the first character of `r` skipped. */
  lemma EmbedSkip(t: string, r: string, pool: string, idx': seq<nat>)
    requires r != [] && r[0] in pool
    requires IsEmbedding(t, r[1..], idx') && OthersFrom(r[1..], idx', pool)
    ensures IsEmbedding(t, r, Shift(idx', 1)) && OthersFrom(r, Shift(idx', 1), pool)
  {
    var idx := Shift(idx', 1);
    forall j | 0 <= j < |r| && j !in idx ensures r[j] in pool {
      if j > 0 {
        ShiftMembers(idx', 1, j);
        assert r[1..][j - 1] == r[j];
      }
    }
  }

  lemma {:induction false} InterleavedSound(t: string, r: string, pool: string)
    requires Interleaved(t, r, pool)
    ensures InsertsFrom(t, r, pool)
    decreases |r|
  {
    if r == [] {
      assert IsEmbedding(t, r, []) && OthersFrom(r, [], pool);
    } else if t != [] && r[0] == t[0] && Interleaved(t[1..], r[1..], pool) {
      InterleavedSound(t[1..], r[1..], pool);
      var idx' :| IsEmbedding(t[1..], r[1..], idx') && OthersFrom(r[1..], idx', pool);
      EmbedMatch(t, r, pool, idx');
    } else {
      InterleavedSound(t, r[1..], pool);
      var idx' :| IsEmbedding(t, r[1..], idx') && OthersFrom(r[1..], idx', pool);
      EmbedSkip(t, r, pool, idx');
    }
  }

  /** An embedding of `t` into `r` that uses `r[0]`, without its first entry. */
  lemma UnembedMatch(t: string, r: string, pool: string, idx: seq<nat>)
    requires r != [] && IsEmbedding(t, r, idx) && OthersFrom(r, idx, pool)
    requires |idx| > 0 && idx[0] == 0
    ensures t != [] && r[0] == t[0]
    ensures forall i :: 0 <= i < |idx[1..]| ==> idx[1..][i] - 1 >= 0
    ensures IsEmbedding(t[1..], r[1..], Shift(idx[1..], -1)) && OthersFrom(r[1..], Shift(idx[1..], -1), pool)
  {
    var idx' := Shift(idx[1..], -1);
    forall j | 0 <= j < |r[1..]| && j !in idx' ensures r[1..][j] in pool {
      ShiftMembers(idx[1..], -1, j);
      assert j + 1 !in idx;
    }
  }

  /** An embedding of `t` into `r` that skips `r[0]`, shifted onto `r[1..]`. */
  lemma UnembedSkip(t: string, r: string, pool: string, idx: seq<nat>)
    requires r != [] && IsEmbedding(t, r, idx) && OthersFrom(r, idx, pool)
    requires !(|idx| > 0 && idx[0] == 0)
    ensures r[0] in pool
    ensures forall i :: 0 <= i < |idx| ==> idx[i] - 1 >= 0
    ensures IsEmbedding(t, r[1..], Shift(idx, -1)) && OthersFrom(r[1..], Shift(idx, -1), pool)
  {
    forall i | 0 <= i < |idx| ensures idx[i] >= 1 {
      if i > 0 { assert idx[0] < idx[i]; }
    }
    assert 0 !in idx;
    var idx' := Shift(idx, -1);
    forall j | 0 <= j < |r[1..]| && j !in idx' ensures r[1..][j] in pool {
      ShiftMembers(idx, -1, j);
    }
  }

  lemma {:induction false} InterleavedComplete(t: string, r: string, pool: string, idx: seq<nat>)
    requires IsEmbedding(t, r, idx) && OthersFrom(r, idx, pool)
    ensures Interleaved(t, r, pool)
    decreases |r|
  {
    if r == [] {
    } else if |idx| > 0 && idx[0] == 0 {
      UnembedMatch(t, r, pool, idx);
      InterleavedComplete(t[1..], r[1..], pool, Shift(idx[1..], -1));
    } else {
      UnembedSkip(t, r, pool, idx);
      InterleavedComplete(t, r[1..], pool, Shift(idx, -1));
    }
  }

  /** The recursive relation and the reference formulation agree. */
  lemma InterleavedIff(t: string, r: string, pool: string)
    ensures Interleaved(t, r, pool) <==> InsertsFrom(t, r, pool)
  {
    if Interleaved(t, r, pool) {
      InterleavedSound(t, r, pool);
    }
    if InsertsFrom(t, r, pool) {
      var idx :| IsEmbedding(t, r, idx) && OthersFrom(r, idx, pool);
      InterleavedComplete(t, r, pool, idx);
    }
  }

  /** Every string is itself with nothing inserted. */
  lemma {:induction false} InterleavedRefl(t: string, pool: string)
    ensures Interleaved(t, t, pool)
    decreases |t|
  {
    if t != [] {
      InterleavedRefl(t[1..], pool);
    }
  }

  /** Inserting one more pool character anywhere keeps the relation. */
  lemma {:induction false} InsertInterleaved(t: string, s: string, pool: string, p: nat, c: char)
    requires Interleaved(t, s, pool) && p <= |s| && c in pool
    ensures Interleaved(t, Insert(s, p, c), pool)
    decreases p
  {
    var r := Insert(s, p, c);
    if p == 0 {
      assert r[1..] == s;
    } else {
      assert r[1..] == Insert(s[1..], p - 1, c);
      if t != [] && s[0] == t[0] && Interleaved(t[1..], s[1..], pool) {
        InsertInterleaved(t[1..], s[1..], pool, p - 1, c);
      } else {
        InsertInterleaved(t, s[1..], pool, p - 1, c);
      }
    }
  }

  /** Insertion only adds characters: `t` keeps its order inside `r`, `r`
      is at least as long, and the characters it has beyond those of `t`
      are pool characters. */
  lemma {:induction false} InterleavedContents(t: string, r: string, pool: string)
    requires Interleaved(t, r, pool)
    ensures |t| <= |r|
    ensures multiset(t) <= multiset(r)
    ensures forall x :: x in multiset(r) - multiset(t) ==> x in pool
    decreases |r|
  {
    if r != [] {
      assert r == [r[0]] + r[1..];
      if t != [] && r[0] == t[0] && Interleaved(t[1..], r[1..], pool) {
        InterleavedContents(t[1..], r[1..], pool);
        assert t == [t[0]] + t[1..];
        assert multiset(r) - multiset(t) == multiset(r[1..]) - multiset(t[1..]);
      } else {
        InterleavedContents(t, r[1..], pool);
        forall x | x in multiset(r) - multiset(t) ensures x in pool {
          if x != r[0] {
            assert multiset(r)[x] == multiset(r[1..])[x];
          }
        }
      }
    }
  }

  /** When nothing was inserted, the relation is equality. */
  lemma {:induction false} InterleavedSameLength(t: string, r: string, pool: string)
    requires Interleaved(t, r, pool) && |r| == |t|
    ensures r == t
    decreases |r|
  {
    if r != [] {
      if t != [] && r[0] == t[0] && Interleaved(t[1..], r[1..], pool) {
        InterleavedSameLength(t[1..], r[1..], pool);
      } else {
        InterleavedContents(t, r[1..], pool);
      }
    }
  }

  /** Interleaving from a pool allows interleaving from any larger pool. */
  lemma {:induction false} InterleavedWiderPool(t: string, r: string, pool: string, wider: string)
    requires Interleaved(t, r, pool) && forall x :: x in pool ==> x in wider
    ensures Interleaved(t, r, wider)
    decreases |r|
  {
    if r != [] {
      if t != [] && r[0] == t[0] && Interleaved(t[1..], r[1..], pool) {
        InterleavedWiderPool(t[1..], r[1..], pool, wider);
      } else {
        InterleavedWiderPool(t, r[1..], pool, wider);
      }
    }
  }
}
