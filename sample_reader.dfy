/** `stereo_channels_iter` from src/sample_reader.rs (and, word for word,
    from 19spring/comp-music-510/proj/src/sample_reader.rs): an interleaved
    buffer L0 R0 L1 R1 ... split into (L, R) pairs. */
module SampleReader {
  import opened Util

  /** The pairs of an interleaved buffer; `None` where `assert_eq!(v.len() % 2, 0)`
      fails. */
  function StereoChannels<T>(v: seq<T>): (r: Option<seq<(T, T)>>)
    ensures r.None? <==> |v| % 2 != 0
    ensures r.Some? ==> |r.value| == |v| / 2
    ensures r.Some? ==> forall i :: 0 <= i < |r.value| ==> r.value[i] == (v[2 * i], v[2 * i + 1])
  {
    if |v| % 2 != 0 then None
    else Some(seq(|v| / 2, i requires 0 <= i < |v| / 2 => (v[i * 2], v[i * 2 + 1])))
  }

  /** Interleaving: the inverse direction, L0 R0 L1 R1 ... from the pairs. */
  function Interleave<T>(ps: seq<(T, T)>): (v: seq<T>)
    ensures |v| == 2 * |ps|
    ensures forall i :: 0 <= i < |ps| ==> v[2 * i] == ps[i].0 && v[2 * i + 1] == ps[i].1
  {
    if ps == [] then [] else [ps[0].0, ps[0].1] + Interleave(ps[1..])
  }

  /** Splitting then interleaving gives back the buffer. */
  lemma InterleaveStereoChannels<T>(v: seq<T>)
    requires |v| % 2 == 0
    ensures Interleave(StereoChannels(v).value) == v
  {
    var ps := StereoChannels(v).value;
    var w := Interleave(ps);
    assert |w| == |v|;
    forall j | 0 <= j < |v|
      ensures w[j] == v[j]
    {
      var i := j / 2;
      assert 0 <= i < |ps|;
      assert ps[i] == (v[2 * i], v[2 * i + 1]);
      if j == 2 * i {
        assert w[2 * i] == ps[i].0;
      } else {
        assert j == 2 * i + 1;
        assert w[2 * i + 1] == ps[i].1;
      }
    }
    assert w == v;
  }

  /** Interleaving then splitting gives back the pairs. */
  lemma StereoChannelsInterleave<T>(ps: seq<(T, T)>)
    ensures StereoChannels(Interleave(ps)) == Some(ps)
  {
    var v := Interleave(ps);
    assert |v| % 2 == 0;
    var r := StereoChannels(v).value;
    assert |r| == |ps|;
    forall i | 0 <= i < |ps|
      ensures r[i] == ps[i]
    {
      assert r[i] == (v[2 * i], v[2 * i + 1]);
      assert v[2 * i] == ps[i].0 && v[2 * i + 1] == ps[i].1;
    }
    assert r == ps;
  }
}
