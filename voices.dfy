/** Live producers and how the engines mix them. A producer (`Box<dyn
    Sound>`) is modelled by the samples it still has to yield. The current
    engine keeps pressed notes in a map keyed by MIDI key and released ones
    in vectors (`elapse_map` and `elapse_vec` of src/midisyn.rs); the older
    engine has only the map. Advancing by `n` samples adds each producer's
    next `n` samples (zeros once it has run out) into the output and keeps
    exactly the producers that did not run out, advanced by `n`. */
module Voices {
  import opened Util

  /** Sample `i` of a producer, or silence once it has run out. */
  function At(p: seq<real>, i: nat): real {
    if i < |p| then p[i] else 0.0
  }

  /** A producer after `n` of its samples: what it still yields from its
      `n`th sample on, nothing once it has run out. */
  function Skip(p: seq<real>, n: nat): (r: seq<real>)
    ensures |r| == if n <= |p| then |p| - n else 0
    ensures forall j :: 0 <= j < |r| ==> r[j] == p[n + j]
  {
    if n <= |p| then seq(|p| - n, j requires 0 <= j < |p| - n => p[n + j]) else []
  }

  /** Skipping is dropping a prefix. */
  lemma SkipDrop(p: seq<real>, n: nat)
    requires n <= |p|
    ensures Skip(p, n) == p[n..]
  {
  }

  /** Sample `i` after skipping `n` is sample `n + i`. */
  lemma SkipAt(p: seq<real>, n: nat, i: nat)
    requires n <= |p|
    ensures At(Skip(p, n), i) == At(p, n + i)
  {
  }

  /** Two skips are one skip by the total. */
  lemma SkipSkip(p: seq<real>, a: nat, b: nat)
    requires a + b <= |p|
    ensures Skip(Skip(p, a), b) == Skip(p, a + b)
  {
  }

  // ---- Vectors of producers --------------------------------------------

  /** Sample `i` of the mix of a vector of producers. */
  function VecAt(ns: seq<seq<real>>, i: nat): real {
    if ns == [] then 0.0 else VecAt(ns[..|ns| - 1], i) + At(ns[|ns| - 1], i)
  }

  /** The vector after an `n`-sample advance: producers with fewer than `n`
      samples left are dropped, the others keep their order and lose their
      first `n` samples. */
  function AdvanceVec(ns: seq<seq<real>>, n: nat): (r: seq<seq<real>>)
    ensures |r| <= |ns|
  {
    if ns == [] then []
    else
      var last := ns[|ns| - 1];
      AdvanceVec(ns[..|ns| - 1], n) + (if |last| >= n then [Skip(last, n)] else [])
  }

  lemma VecAtAppend(ns: seq<seq<real>>, p: seq<real>, i: nat)
    ensures VecAt(ns + [p], i) == VecAt(ns, i) + At(p, i)
  {
    assert (ns + [p])[..|ns|] == ns;
  }

  lemma AdvanceVecAppend(ns: seq<seq<real>>, p: seq<real>, n: nat)
    ensures AdvanceVec(ns + [p], n) == AdvanceVec(ns, n) + (if |p| >= n then [Skip(p, n)] else [])
  {
    assert (ns + [p])[..|ns|] == ns;
  }

  /** After an advance the mix continues where it stopped: sample `i` of the
      advanced vector is sample `n + i` of the original one. No sample is
      lost or played twice, and dropping a producer loses nothing. */
  lemma {:induction false} VecAtShift(ns: seq<seq<real>>, n: nat, i: nat)
    ensures VecAt(AdvanceVec(ns, n), i) == VecAt(ns, n + i)
    decreases |ns|
  {
    if ns != [] {
      var front, last := ns[..|ns| - 1], ns[|ns| - 1];
      assert ns == front + [last];
      VecAtShift(front, n, i);
      AdvanceVecAppend(front, last, n);
      VecAtAppend(front, last, n + i);
      if |last| >= n {
        VecAtAppend(AdvanceVec(front, n), Skip(last, n), i);
        SkipAt(last, n, i);
      } else {
        assert AdvanceVec(ns, n) == AdvanceVec(front, n);
        assert At(last, n + i) == 0.0;
      }
    }
  }

  /** Two advances are one advance by the total. */
  lemma {:induction false} AdvanceVecAdd(ns: seq<seq<real>>, a: nat, b: nat)
    ensures AdvanceVec(AdvanceVec(ns, a), b) == AdvanceVec(ns, a + b)
    decreases |ns|
  {
    if ns != [] {
      var front, last := ns[..|ns| - 1], ns[|ns| - 1];
      assert ns == front + [last];
      AdvanceVecAdd(front, a, b);
      AdvanceVecAppend(front, last, a);
      if |last| >= a {
        AdvanceVecAppend(AdvanceVec(front, a), Skip(last, a), b);
        if |last| >= a + b {
          SkipSkip(last, a, b);
        }
      } else {
        assert AdvanceVec(ns, a) == AdvanceVec(front, a);
      }
    }
  }

  /** When every producer has at least `n` samples left, none is dropped:
      producer `j` is the old producer `j` without its first `n` samples. */
  lemma {:induction false} AdvanceVecKeepsAll(ns: seq<seq<real>>, n: nat)
    requires forall j :: 0 <= j < |ns| ==> |ns[j]| >= n
    ensures |AdvanceVec(ns, n)| == |ns|
    ensures forall j :: 0 <= j < |ns| ==> AdvanceVec(ns, n)[j] == Skip(ns[j], n)
    decreases |ns|
  {
    if ns != [] {
      var front, last := ns[..|ns| - 1], ns[|ns| - 1];
      AdvanceVecKeepsAll(front, n);
    }
  }

  /** A producer shorter than the advance is dropped, so the vector shrinks. */
  lemma {:induction false} AdvanceVecDrops(ns: seq<seq<real>>, n: nat, j: nat)
    requires j < |ns| && |ns[j]| < n
    ensures |AdvanceVec(ns, n)| < |ns|
    decreases |ns|
  {
    var front, last := ns[..|ns| - 1], ns[|ns| - 1];
    if j < |ns| - 1 {
      AdvanceVecDrops(front, n, j);
    }
  }

  // ---- Maps of producers -----------------------------------------------

  /** The sum of sample `i` over the producers under keys `k` to 255. */
  function KeySum(m: map<Byte, seq<real>>, i: nat, k: nat): real
    decreases 256 - k
  {
    if k >= 256 then 0.0
    else (if k as Byte in m then At(m[k as Byte], i) else 0.0) + KeySum(m, i, k + 1)
  }

  /** Sample `i` of the mix of a map of producers: the order a `HashMap`
      visits its keys in does not matter to a sum, so the keys are summed
      in increasing order. */
  function MapAt(m: map<Byte, seq<real>>, i: nat): real {
    KeySum(m, i, 0)
  }

  /** The map after an `n`-sample advance: the keys whose producers have at
      least `n` samples left, each without its first `n` samples. */
  function AdvanceMap(m: map<Byte, seq<real>>, n: nat): (r: map<Byte, seq<real>>)
    ensures r.Keys <= m.Keys
  {
    map k | k in m && |m[k]| >= n :: Skip(m[k], n)
  }

  lemma {:induction false} KeySumEmpty(i: nat, k: nat)
    ensures KeySum(map[], i, k) == 0.0
    decreases 256 - k
  {
    if k < 256 {
      KeySumEmpty(i, k + 1);
    }
  }

  lemma {:induction false} KeySumRemove(m: map<Byte, seq<real>>, i: nat, x: Byte, k: nat)
    requires x in m
    ensures KeySum(m, i, k) == (if k <= x then At(m[x], i) else 0.0) + KeySum(m - {x}, i, k)
    decreases 256 - k
  {
    if k < 256 {
      KeySumRemove(m, i, x, k + 1);
    }
  }

  /** The mix of an empty map is silence. */
  lemma MapAtEmpty(i: nat)
    ensures MapAt(map[], i) == 0.0
  {
    KeySumEmpty(i, 0);
  }

  /** Taking one producer out of the mix: the rest plus that one. */
  lemma MapAtRemove(m: map<Byte, seq<real>>, x: Byte, i: nat)
    requires x in m
    ensures MapAt(m, i) == At(m[x], i) + MapAt(m - {x}, i)
  {
    KeySumRemove(m, i, x, 0);
  }

  lemma {:induction false} KeySumShift(m: map<Byte, seq<real>>, n: nat, i: nat, k: nat)
    ensures KeySum(AdvanceMap(m, n), i, k) == KeySum(m, n + i, k)
    decreases 256 - k
  {
    if k < 256 {
      KeySumShift(m, n, i, k + 1);
    }
  }

  /** After an advance the map's mix continues where it stopped. */
  lemma MapAtShift(m: map<Byte, seq<real>>, n: nat, i: nat)
    ensures MapAt(AdvanceMap(m, n), i) == MapAt(m, n + i)
  {
    KeySumShift(m, n, i, 0);
  }

  /** Advancing by nothing keeps every producer as it is. */
  lemma AdvanceMapZero(m: map<Byte, seq<real>>)
    ensures AdvanceMap(m, 0) == m
  {
    forall k | k in m
      ensures Skip(m[k], 0) == m[k]
    {
    }
  }

  /** Two advances of a map are one advance by the total. */
  lemma AdvanceMapAdd(m: map<Byte, seq<real>>, a: nat, b: nat)
    ensures AdvanceMap(AdvanceMap(m, a), b) == AdvanceMap(m, a + b)
  {
    var l, r := AdvanceMap(AdvanceMap(m, a), b), AdvanceMap(m, a + b);
    forall k | k in m && |m[k]| >= a + b
      ensures Skip(Skip(m[k], a), b) == Skip(m[k], a + b)
    {
      SkipSkip(m[k], a, b);
    }
    assert l.Keys == r.Keys;
  }

  /** One more key done: the done part of `ns` gains `key`. */
  lemma DoneGrows(ns: map<Byte, seq<real>>, t: map<Byte, seq<real>>, key: Byte)
    requires key in t && t.Keys <= ns.Keys
    ensures ns - (t - {key}).Keys == (ns - t.Keys)[key := ns[key]]
    ensures key !in ns - t.Keys
  {
  }

  /** Advancing a map that gained one key. */
  lemma AdvanceMapInsert(m: map<Byte, seq<real>>, key: Byte, s: seq<real>, n: nat)
    requires key !in m
    ensures AdvanceMap(m[key := s], n) == if |s| >= n then AdvanceMap(m, n)[key := Skip(s, n)] else AdvanceMap(m, n)
  {
  }

  /** The mix of a map that gained one key. */
  lemma MapAtInsert(m: map<Byte, seq<real>>, key: Byte, s: seq<real>, i: nat)
    requires key !in m
    ensures MapAt(m[key := s], i) == MapAt(m, i) + At(s, i)
  {
    MapAtRemove(m[key := s], key, i);
    assert m[key := s] - {key} == m;
  }

  // ---- The in-place loops ----------------------------------------------

  /** Pulling up to `out.Length` samples from one producer into `out` (the
      inner loop of `elapse_vec` and `elapse_map`): each sample is added to
      its slot until the producer returns `None`. The producer is kept,
      advanced, only if it did not run out; one with exactly `out.Length`
      samples left is kept with nothing left. */
  method Pull(s: seq<real>, out: array<real>) returns (kept: Option<seq<real>>)
    modifies out
    ensures kept == if |s| >= out.Length then Some(Skip(s, out.Length)) else None
    ensures forall j :: 0 <= j < out.Length ==> out[j] == old(out[j]) + At(s, j)
  {
    var rest := s;
    var i := 0;
    var empty := false;
    while i < out.Length && !empty
      invariant 0 <= i <= out.Length && i <= |s|
      invariant rest == s[i..]
      invariant empty ==> i == |s| < out.Length
      invariant forall j :: 0 <= j < i ==> out[j] == old(out[j]) + s[j]
      invariant forall j :: i <= j < out.Length ==> out[j] == old(out[j])
      decreases out.Length - i, if empty then 0 else 1
    {
      if rest != [] {
        out[i] := out[i] + rest[0];
        rest := rest[1..];
        i := i + 1;
      } else {
        empty := true;
      }
    }
    if empty {
      kept := None;
    } else {
      SkipDrop(s, out.Length);
      kept := Some(rest);
    }
  }

  /** `elapse_vec(ns, out)`: every producer of `ns`, in order, is mixed into
      `out`; the producers that did not run out are what `ns` holds
      afterwards, in their old order. */
  method ElapseVec(ns: seq<seq<real>>, out: array<real>) returns (kept: seq<seq<real>>)
    modifies out
    ensures kept == AdvanceVec(ns, out.Length)
    ensures forall j :: 0 <= j < out.Length ==> out[j] == old(out[j]) + VecAt(ns, j)
  {
    kept := [];
    var idx := 0;
    while idx < |ns|
      invariant 0 <= idx <= |ns|
      invariant kept == AdvanceVec(ns[..idx], out.Length)
      invariant forall j :: 0 <= j < out.Length ==> out[j] == old(out[j]) + VecAt(ns[..idx], j)
    {
      ghost var before := out[..];
      var s := ns[idx];
      var r := Pull(s, out);
      assert ns[..idx + 1] == ns[..idx] + [s];
      AdvanceVecAppend(ns[..idx], s, out.Length);
      forall j | 0 <= j < out.Length
        ensures out[j] == old(out[j]) + VecAt(ns[..idx + 1], j)
      {
        VecAtAppend(ns[..idx], s, j);
        assert out[j] == before[j] + At(s, j);
      }
      if r.Some? {
        kept := kept + [r.value];
      }
      idx := idx + 1;
    }
    assert ns[..|ns|] == ns;
  }

  /** `elapse_map(ns, out)`: every producer of `ns`, in whatever order the
      map yields them, is mixed into `out`; the keys whose producers did not
      run out are what `ns` holds afterwards. */
  method ElapseMap(ns: map<Byte, seq<real>>, out: array<real>) returns (kept: map<Byte, seq<real>>)
    modifies out
    ensures kept == AdvanceMap(ns, out.Length)
    ensures forall j :: 0 <= j < out.Length ==> out[j] == old(out[j]) + MapAt(ns, j)
  {
    var t := ns;
    kept := map[];
    assert ns - ns.Keys == map[];
    forall j | 0 <= j < out.Length
      ensures out[j] == old(out[j]) + MapAt(ns - t.Keys, j)
    {
      MapAtEmpty(j);
    }
    while t != map[]
      invariant t.Keys <= ns.Keys
      invariant forall k :: k in t ==> t[k] == ns[k]
      invariant kept == AdvanceMap(ns - t.Keys, out.Length)
      invariant forall j :: 0 <= j < out.Length ==> out[j] == old(out[j]) + MapAt(ns - t.Keys, j)
      decreases |t.Keys|
    {
      var key :| key in t;
      var s := t[key];
      ghost var done, before := ns - t.Keys, out[..];
      DoneGrows(ns, t, key);
      AdvanceMapInsert(done, key, s, out.Length);
      t := t - {key};
      var r := Pull(s, out);
      forall j | 0 <= j < out.Length
        ensures out[j] == old(out[j]) + MapAt(done[key := s], j)
      {
        MapAtInsert(done, key, s, j);
        assert out[j] == before[j] + At(s, j);
      }
      if r.Some? {
        kept := kept[key := r.value];
      }
    }
    assert ns - t.Keys == ns;
  }

  /** One key of `MixOne`: its next sample joins the sum and, if it had
      one, the producer joins the kept map advanced by one. */
  lemma MixOneStep(ns: map<Byte, seq<real>>, t: map<Byte, seq<real>>, key: Byte,
                   kept: map<Byte, seq<real>>, v: real)
    requires key in t && t.Keys <= ns.Keys && t[key] == ns[key]
    requires kept == AdvanceMap(ns - t.Keys, 1) && v == MapAt(ns - t.Keys, 0)
    ensures t[key] != [] ==> kept[key := t[key][1..]] == AdvanceMap(ns - (t - {key}).Keys, 1)
    ensures t[key] == [] ==> kept == AdvanceMap(ns - (t - {key}).Keys, 1)
    ensures t[key] != [] ==> v + t[key][0] == MapAt(ns - (t - {key}).Keys, 0)
    ensures t[key] == [] ==> v == MapAt(ns - (t - {key}).Keys, 0)
  {
    var s, done := t[key], ns - t.Keys;
    DoneGrows(ns, t, key);
    AdvanceMapInsert(done, key, s, 1);
    MapAtInsert(done, key, s, 0);
    if s != [] {
      SkipDrop(s, 1);
    }
  }

  /** One sample of the older engine's loop: every producer of the map gives
      its next sample, which is summed; those that returned a sample are put
      back, advanced by one, and those that returned `None` are gone. */
  method MixOne(ns: map<Byte, seq<real>>) returns (kept: map<Byte, seq<real>>, v: real)
    ensures kept == AdvanceMap(ns, 1)
    ensures v == MapAt(ns, 0)
  {
    var t := ns;
    kept := map[];
    v := 0.0;
    assert ns - ns.Keys == map[];
    MapAtEmpty(0);
    while t != map[]
      invariant t.Keys <= ns.Keys
      invariant forall k :: k in t ==> t[k] == ns[k]
      invariant kept == AdvanceMap(ns - t.Keys, 1)
      invariant v == MapAt(ns - t.Keys, 0)
      decreases |t.Keys|
    {
      var key :| key in t;
      var s := t[key];
      MixOneStep(ns, t, key, kept, v);
      t := t - {key};
      if s != [] {
        kept := kept[key := s[1..]];
        v := v + s[0];
      }
    }
    assert ns - t.Keys == ns;
  }
}
