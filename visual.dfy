/** Visual weight and colour of a wavefunction's points.

    Probabilities are JavaScript numbers compared only against constants;
    they are modelled as exact reals. */
module Visual {
  import opened QuantumKeys

  /** The six opacities getAlpha returns, from the most to the least opaque. */
  const AlphaLevels: seq<real> := [1.0, 0.8, 0.6, 0.4, 0.2, 0.1]

  /** The thresholds getAlpha compares against, from the largest down. */
  const AlphaThresholds: seq<real> := [0.1, 0.01, 0.001, 0.0001, 0.00001]

  /** getAlpha: the opacity band of probability p. */
  function Alpha(p: real): (a: real)
    ensures a in AlphaLevels
    ensures a == 1.0 <==> p > 0.1
    ensures a == 0.1 <==> p <= 0.00001
  {
    if p > 0.1 then 1.0
    else if p > 0.01 then 0.8
    else if p > 0.001 then 0.6
    else if p > 0.0001 then 0.4
    else if p > 0.00001 then 0.2
    else 0.1
  }

  /** How many of the thresholds ts lie strictly below p. */
  function Exceeded(p: real, ts: seq<real>): (c: nat)
    ensures c <= |ts|
  {
    if ts == [] then 0
    else (if p > ts[0] then 1 else 0) + Exceeded(p, ts[1..])
  }

  /** A larger probability exceeds at least as many thresholds. */
  lemma {:induction false} ExceededMonotone(p1: real, p2: real, ts: seq<real>)
    requires p1 >= p2
    ensures Exceeded(p1, ts) >= Exceeded(p2, ts)
    decreases |ts|
  {
    if ts != [] {
      ExceededMonotone(p1, p2, ts[1..]);
    }
  }

  /** Reference ladder: the band of p is the number of thresholds p exceeds,
      and each band up is one step up AlphaLevels. */
  lemma AlphaIsLadder(p: real)
    ensures Alpha(p) == AlphaLevels[|AlphaThresholds| - Exceeded(p, AlphaThresholds)]
  {
    var e5 := if p > 0.00001 then 1 else 0;
    var e4 := e5 + if p > 0.0001 then 1 else 0;
    var e3 := e4 + if p > 0.001 then 1 else 0;
    var e2 := e3 + if p > 0.01 then 1 else 0;
    assert Exceeded(p, [0.00001]) == e5 by { assert [0.00001][1..] == []; }
    assert Exceeded(p, [0.0001, 0.00001]) == e4 by { assert [0.0001, 0.00001][1..] == [0.00001]; }
    assert Exceeded(p, [0.001, 0.0001, 0.00001]) == e3 by {
      assert [0.001, 0.0001, 0.00001][1..] == [0.0001, 0.00001];
    }
    assert Exceeded(p, [0.01, 0.001, 0.0001, 0.00001]) == e2 by {
      assert [0.01, 0.001, 0.0001, 0.00001][1..] == [0.001, 0.0001, 0.00001];
    }
    assert AlphaThresholds[1..] == [0.01, 0.001, 0.0001, 0.00001];
  }

  /** The opacity never falls as the probability rises. */
  lemma AlphaMonotone(p1: real, p2: real)
    requires p1 > p2
    ensures Alpha(p1) >= Alpha(p2)
  {
    AlphaIsLadder(p1);
    AlphaIsLadder(p2);
    ExceededMonotone(p1, p2, AlphaThresholds);
  }

  /** The colours getColor picks from; the last entry is never returned. */
  const Palette: seq<string> :=
    ["#0275d8", "#5cb85c", "#5bc0de", "#f0ad4e", "#d9534f", "#292b2c", "#f7f7f7"]

  /** The keys getColor recognises; key i is given Palette[i]. */
  const ColorKeys: seq<string> := ["200", "210", "211", "300", "310", "320"]

  /** The same six states as quantum-number triples. */
  const ColorStates: seq<(int, int, int)> :=
    [(2, 0, 0), (2, 1, 0), (2, 1, 1), (3, 0, 0), (3, 1, 0), (3, 2, 0)]

  /** getColor: the palette entry of a recognised state, else "white". */
  function Color(n: int, l: int, m: int): (c: string)
    ensures c == "white" || c in Palette[..6]
  {
    var q := MergeQuantumNumber(n, l, m);
    if q == "200" then Palette[0]
    else if q == "210" then Palette[1]
    else if q == "211" then Palette[2]
    else if q == "300" then Palette[3]
    else if q == "310" then Palette[4]
    else if q == "320" then Palette[5]
    else "white"
  }

  /** The state named by recognised key i. */
  lemma ColorKeyState(i: nat)
    requires i < |ColorKeys|
    ensures MergeQuantumNumber(ColorStates[i].0, ColorStates[i].1, ColorStates[i].2) == ColorKeys[i]
  {
  }

  /** Recognised key i alone: it gets Palette[i], and only it does. */
  lemma ColorOneKey(n: int, l: int, m: int, i: nat)
    requires i < |ColorKeys|
    ensures Color(n, l, m) == Palette[i] <==> MergeQuantumNumber(n, l, m) == ColorKeys[i]
  {
    if MergeQuantumNumber(n, l, m) == ColorKeys[i] {
      assert Color(n, l, m) == Palette[i];
    }
  }

  /** Colour by key: key i gets Palette[i], every other key gets "white". */
  lemma ColorByKey(n: int, l: int, m: int)
    ensures forall i :: 0 <= i < |ColorKeys| ==>
      (Color(n, l, m) == Palette[i] <==> MergeQuantumNumber(n, l, m) == ColorKeys[i])
    ensures Color(n, l, m) == "white" <==> MergeQuantumNumber(n, l, m) !in ColorKeys
  {
    forall i | 0 <= i < |ColorKeys|
      ensures Color(n, l, m) == Palette[i] <==> MergeQuantumNumber(n, l, m) == ColorKeys[i]
    {
      ColorOneKey(n, l, m, i);
    }
  }

  /** Colour by state: the i-th recognised state gets Palette[i], every
      other state (n, l, m), whatever the size of its numbers, "white". */
  lemma ColorByState(n: int, l: int, m: int)
    ensures forall i :: 0 <= i < |ColorStates| ==>
      (Color(n, l, m) == Palette[i] <==> (n, l, m) == ColorStates[i])
    ensures Color(n, l, m) == "white" <==> (n, l, m) !in ColorStates
  {
    ColorByKey(n, l, m);
    var q := MergeQuantumNumber(n, l, m);
    forall i | 0 <= i < |ColorStates|
      ensures q == ColorKeys[i] <==> (n, l, m) == ColorStates[i]
    {
      var s := ColorStates[i];
      ColorKeyState(i);
      if q == ColorKeys[i] {
        MergeInjective(n, l, m, s.0, s.1, s.2);
      }
    }
  }
}
