/** The samples of one wavefunction and the two parallel buffers initData
    builds from them: three coordinates and one opacity per sample whose
    probability is above the minimum. */
module Samples {
  import opened Visual

  /** One precomputed sample: spherical coordinates and probability. */
  datatype Sample = Sample(r: real, theta: real, phi: real, p: real)

  /** A Cartesian position. */
  datatype Vec3 = Vec3(x: real, y: real, z: real)

  /** The samples that survive the filter p > minProb, in input order. */
  function Kept(data: seq<Sample>, minProb: real): (ks: seq<Sample>)
    ensures |ks| <= |data|
    ensures forall k :: 0 <= k < |ks| ==> ks[k].p > minProb
  {
    if data == [] then []
    else
      var last := data[|data| - 1];
      Kept(data[..|data| - 1], minProb) + (if last.p > minProb then [last] else [])
  }

  /** Filtering distributes over concatenation, so kept samples keep their
      relative order. */
  lemma {:induction false} KeptAppend(a: seq<Sample>, b: seq<Sample>, minProb: real)
    ensures Kept(a + b, minProb) == Kept(a, minProb) + Kept(b, minProb)
    decreases |b|
  {
    if b == [] {
      assert a + b == a;
    } else {
      var b' := b[..|b| - 1];
      assert (a + b)[..|a + b| - 1] == a + b';
      KeptAppend(a, b', minProb);
    }
  }

  /** A single sample is kept exactly when its probability exceeds minProb. */
  lemma KeptSingle(s: Sample, minProb: real)
    ensures Kept([s], minProb) == (if s.p > minProb then [s] else [])
  {
    assert [s][..0] == [];
  }

  /** A sample is kept exactly when it occurs in the data with p > minProb. */
  lemma {:induction false} KeptMembers(data: seq<Sample>, minProb: real, s: Sample)
    ensures s in Kept(data, minProb) <==> s in data && s.p > minProb
    decreases |data|
  {
    if data != [] {
      var init := data[..|data| - 1];
      KeptMembers(init, minProb, s);
      assert data == init + [data[|data| - 1]];
    }
  }

  /** Samples with p <= minProb contribute nothing. */
  lemma {:induction false} KeptNone(data: seq<Sample>, minProb: real)
    requires forall k :: 0 <= k < |data| ==> data[k].p <= minProb
    ensures Kept(data, minProb) == []
    decreases |data|
  {
    if data != [] {
      KeptNone(data[..|data| - 1], minProb);
    }
  }

  /** Data every sample of which passes is kept whole. */
  lemma {:induction false} KeptAll(data: seq<Sample>, minProb: real)
    requires forall k :: 0 <= k < |data| ==> data[k].p > minProb
    ensures Kept(data, minProb) == data
    decreases |data|
  {
    if data != [] {
      var init := data[..|data| - 1];
      KeptAll(init, minProb);
      assert data == init + [data[|data| - 1]];
    }
  }

  /** Filtering twice with the same minimum keeps everything the first
      filter kept. */
  lemma KeptIdempotent(data: seq<Sample>, minProb: real)
    ensures Kept(Kept(data, minProb), minProb) == Kept(data, minProb)
  {
    KeptAll(Kept(data, minProb), minProb);
  }

  /** The alphas buffer for the kept samples ks: one getAlpha value each. */
  function AlphaBuffer(ks: seq<Sample>): (alphas: seq<real>)
    ensures |alphas| == |ks|
    ensures forall k :: 0 <= k < |ks| ==> alphas[k] == Alpha(ks[k].p)
  {
    if ks == [] then []
    else AlphaBuffer(ks[..|ks| - 1]) + [Alpha(ks[|ks| - 1].p)]
  }

  /** The vertices buffer for the kept samples ks: x, y, z of each sample's
      position, in order. */
  function VertexBuffer(ks: seq<Sample>, position: Sample -> Vec3): (vertices: seq<real>)
    ensures |vertices| == 3 * |ks|
    ensures forall k :: 0 <= k < |ks| ==>
      vertices[3 * k] == position(ks[k]).x &&
      vertices[3 * k + 1] == position(ks[k]).y &&
      vertices[3 * k + 2] == position(ks[k]).z
  {
    if ks == [] then []
    else
      var v := position(ks[|ks| - 1]);
      VertexBuffer(ks[..|ks| - 1], position) + [v.x, v.y, v.z]
  }

  /** The inner loop of initData: walks the samples in order, skips those
      with p <= minProb and pushes three coordinates and one opacity for each
      other one. The Cartesian position of a sample is supplied by the caller. */
  method BuildBuffers(data: seq<Sample>, minProb: real, position: Sample -> Vec3)
    returns (vertices: seq<real>, alphas: seq<real>)
    ensures alphas == AlphaBuffer(Kept(data, minProb))
    ensures vertices == VertexBuffer(Kept(data, minProb), position)
    ensures |alphas| == |Kept(data, minProb)| && |vertices| == 3 * |alphas|
  {
    vertices, alphas := [], [];
    for i := 0 to |data|
      invariant alphas == AlphaBuffer(Kept(data[..i], minProb))
      invariant vertices == VertexBuffer(Kept(data[..i], minProb), position)
    {
      var d := data[i];
      ghost var ks := Kept(data[..i], minProb);
      assert data[..i + 1][..i] == data[..i];
      assert Kept(data[..i + 1], minProb) == ks + (if d.p > minProb then [d] else []);
      if d.p > minProb {
        var v := position(d);
        assert (ks + [d])[..|ks|] == ks;
        assert VertexBuffer(ks + [d], position) == VertexBuffer(ks, position) + [v.x, v.y, v.z];
        vertices := vertices + [v.x, v.y, v.z];
        alphas := alphas + [Alpha(d.p)];
      } else {
        assert ks + [] == ks;
      }
    }
    assert data[..|data|] == data;
  }
}
