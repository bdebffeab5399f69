/** The scene of the viewer and the two procedures that rebuild it:
    clearData empties the scene, initData adds the marker sphere at the
    origin and one point cloud per wavefunction the chosen key selects. */
module Viewer {
  import opened QuantumKeys
  import opened Visual
  import opened Samples

  /** One entry of the precomputed wavefunction table. */
  datatype Wavefunction = Wavefunction(n: int, l: int, m: int, data: seq<Sample>)

  /** The settings initData reads: the probability floor and the chosen key. */
  datatype ViewState = ViewState(minProb: real, wavefunction: string)

  /** The settings the viewer starts with. */
  const InitialState: ViewState := ViewState(0.00001, "322")

  /** What initData puts in the scene: the small red sphere marking the
      nucleus, or a point cloud with its position and opacity buffers and the
      colour of its state. */
  datatype Object3D =
    | Nucleus
    | Points(vertices: seq<real>, alphas: seq<real>, color: string)

  /** The point cloud initData builds for wavefunction w. */
  function PointCloud(w: Wavefunction, minProb: real, position: Sample -> Vec3): (o: Object3D)
    ensures o.Points? && o.color == Color(w.n, w.l, w.m)
    ensures |o.alphas| == |Kept(w.data, minProb)| && |o.vertices| == 3 * |o.alphas|
  {
    var ks := Kept(w.data, minProb);
    Points(VertexBuffer(ks, position), AlphaBuffer(ks), Color(w.n, w.l, w.m))
  }

  predicate SelectedBy(state: ViewState, w: Wavefunction) {
    Selected(state.wavefunction, w.n, w.l, w.m)
  }

  /** The point clouds initData adds, in table order: one for each selected
      wavefunction. */
  function Clouds(table: seq<Wavefunction>, state: ViewState, position: Sample -> Vec3)
    : (clouds: seq<Object3D>)
    ensures |clouds| <= |table|
    ensures forall k :: 0 <= k < |clouds| ==> clouds[k].Points?
  {
    if table == [] then []
    else
      var w := table[|table| - 1];
      Clouds(table[..|table| - 1], state, position)
        + (if SelectedBy(state, w) then [PointCloud(w, state.minProb, position)] else [])
  }

  /** The clouds of two parts of the table come one after the other. */
  lemma {:induction false} CloudsAppend(a: seq<Wavefunction>, b: seq<Wavefunction>,
                                        state: ViewState, position: Sample -> Vec3)
    ensures Clouds(a + b, state, position) == Clouds(a, state, position) + Clouds(b, state, position)
    decreases |b|
  {
    if b == [] {
      assert a + b == a;
    } else {
      var b' := b[..|b| - 1];
      assert (a + b)[..|a + b| - 1] == a + b';
      CloudsAppend(a, b', state, position);
    }
  }

  /** A single wavefunction adds its cloud exactly when it is selected. */
  lemma CloudsSingle(w: Wavefunction, state: ViewState, position: Sample -> Vec3)
    ensures Clouds([w], state, position)
      == if SelectedBy(state, w) then [PointCloud(w, state.minProb, position)] else []
  {
    assert [w][..0] == [];
  }

  /** Extending the table prefix by entry i adds that entry's cloud exactly
      when it is selected. */
  lemma CloudsStep(table: seq<Wavefunction>, i: nat, state: ViewState, position: Sample -> Vec3)
    requires i < |table|
    ensures Clouds(table[..i + 1], state, position) == Clouds(table[..i], state, position)
      + (if SelectedBy(state, table[i]) then [PointCloud(table[i], state.minProb, position)] else [])
  {
    assert table[..i + 1][..i] == table[..i];
  }

  /** A key that selects no wavefunction adds no cloud. */
  lemma {:induction false} CloudsNone(table: seq<Wavefunction>, state: ViewState,
                                      position: Sample -> Vec3)
    requires forall k :: 0 <= k < |table| ==> !SelectedBy(state, table[k])
    ensures Clouds(table, state, position) == []
    decreases |table|
  {
    if table != [] {
      CloudsNone(table[..|table| - 1], state, position);
    }
  }

  /** No two entries of the table describe the same state. */
  predicate DistinctStates(table: seq<Wavefunction>) {
    forall i, j :: 0 <= i < j < |table| ==>
      (table[i].n, table[i].l, table[i].m) != (table[j].n, table[j].l, table[j].m)
  }

  /** With distinct states in the table, at most one cloud is added. */
  lemma {:induction false} CloudsAtMostOne(table: seq<Wavefunction>, state: ViewState,
                                           position: Sample -> Vec3)
    requires DistinctStates(table)
    ensures |Clouds(table, state, position)| <= 1
    decreases |table|
  {
    if table != [] {
      var init := table[..|table| - 1];
      var w := table[|table| - 1];
      if SelectedBy(state, w) {
        forall k | 0 <= k < |init|
          ensures !SelectedBy(state, init[k])
        {
          if SelectedBy(state, init[k]) {
            SelectedUnique(state.wavefunction, init[k].n, init[k].l, init[k].m, w.n, w.l, w.m);
            assert false;
          }
        }
        CloudsNone(init, state, position);
      } else {
        CloudsAtMostOne(init, state, position);
      }
    }
  }

  /** With distinct states in the table, an entry the key selects is the
      only one it selects. */
  lemma OnlySelected(table: seq<Wavefunction>, k: nat, state: ViewState)
    requires DistinctStates(table)
    requires k < |table| && SelectedBy(state, table[k])
    ensures forall j :: 0 <= j < |table| && j != k ==> !SelectedBy(state, table[j])
  {
    var w := table[k];
    forall j | 0 <= j < |table| && j != k
      ensures !SelectedBy(state, table[j])
    {
      if SelectedBy(state, table[j]) {
        SelectedUnique(state.wavefunction, table[j].n, table[j].l, table[j].m, w.n, w.l, w.m);
        assert false;
      }
    }
  }

  /** With distinct states in the table, a key that selects entry k draws
      that entry's cloud and nothing else. */
  lemma {:induction false} OnlyCloud(table: seq<Wavefunction>, k: nat, state: ViewState,
                                     position: Sample -> Vec3)
    requires DistinctStates(table)
    requires k < |table| && SelectedBy(state, table[k])
    ensures Clouds(table, state, position) == [PointCloud(table[k], state.minProb, position)]
    decreases |table|
  {
    var init := table[..|table| - 1];
    OnlySelected(table, k, state);
    if k == |table| - 1 {
      forall j | 0 <= j < |init|
        ensures !SelectedBy(state, init[j])
      {
        assert init[j] == table[j];
      }
      CloudsNone(init, state, position);
    } else {
      assert init[k] == table[k];
      assert DistinctStates(init);
      OnlyCloud(init, k, state, position);
    }
  }

  /** Choosing the key of a single-digit entry of a table with distinct
      states draws exactly that entry's cloud. */
  lemma ChosenKeyDrawsItsCloud(table: seq<Wavefunction>, k: nat, minProb: real,
                               position: Sample -> Vec3)
    requires DistinctStates(table)
    requires k < |table| && SingleDigits(table[k].n, table[k].l, table[k].m)
    ensures var w := table[k];
      Clouds(table, ViewState(minProb, MergeQuantumNumber(w.n, w.l, w.m)), position)
        == [PointCloud(w, minProb, position)]
  {
    var w := table[k];
    OwnKeySelects(w.n, w.l, w.m);
    OnlyCloud(table, k, ViewState(minProb, MergeQuantumNumber(w.n, w.l, w.m)), position);
  }

  /** The initial key "322" selects exactly the state (3, 2, 2), and that
      state is drawn in white. */
  lemma InitialSelection(w: Wavefunction)
    ensures SelectedBy(InitialState, w) <==> (w.n, w.l, w.m) == (3, 2, 2)
    ensures SelectedBy(InitialState, w) ==> Color(w.n, w.l, w.m) == "white"
  {
    SelectedIffKey(InitialState.wavefunction, w.n, w.l, w.m);
    assert MergeQuantumNumber(3, 2, 2) == "322";
    if SelectedBy(InitialState, w) {
      MergeInjective(w.n, w.l, w.m, 3, 2, 2);
      ColorByState(3, 2, 2);
    }
  }

  /** With distinct states in the table, the initial settings draw the
      white cloud of the (3, 2, 2) entry and nothing else. */
  lemma InitialClouds(table: seq<Wavefunction>, k: nat, position: Sample -> Vec3)
    requires DistinctStates(table)
    requires k < |table| && (table[k].n, table[k].l, table[k].m) == (3, 2, 2)
    ensures Clouds(table, InitialState, position) == [PointCloud(table[k], InitialState.minProb, position)]
    ensures PointCloud(table[k], InitialState.minProb, position).color == "white"
  {
    InitialSelection(table[k]);
    OnlyCloud(table, k, InitialState, position);
  }

  /** The index of the first child equal to o. */
  function FirstIndex(children: seq<Object3D>, o: Object3D): (i: nat)
    requires o in children
    ensures i < |children| && children[i] == o
    ensures forall j :: 0 <= j < i ==> children[j] != o
  {
    if children[0] == o then 0 else 1 + FirstIndex(children[1..], o)
  }

  /** The scene graph's root: its ordered list of children. */
  class Scene {
    var children: seq<Object3D>

    constructor ()
      ensures children == []
    {
      children := [];
    }

    /** scene.add of a newly made object: it goes after the existing children. */
    method Add(o: Object3D)
      modifies this
      ensures children == old(children) + [o]
    {
      children := children + [o];
    }

    /** scene.remove: the first child equal to o is taken out, the others
        keep their order; nothing happens if o is not a child. */
    method Remove(o: Object3D)
      modifies this
      ensures o !in old(children) ==> children == old(children)
      ensures o in old(children) ==>
        var i := FirstIndex(old(children), o);
        children == old(children)[..i] + old(children)[i + 1..]
    {
      if o in children {
        var i := FirstIndex(children, o);
        children := children[..i] + children[i + 1..];
      }
    }
  }

  /** clearData: removes the first child until none is left. */
  method ClearData(scene: Scene)
    modifies scene
    ensures scene.children == []
  {
    while |scene.children| != 0
      invariant |scene.children| <= |old(scene.children)|
      invariant scene.children == old(scene.children)[|old(scene.children)| - |scene.children|..]
      decreases |scene.children|
    {
      scene.Remove(scene.children[0]);
    }
  }

  /** The body of initData for one selected wavefunction: builds its two
      buffers and adds the resulting point cloud, coloured by its state. */
  method AddPointCloud(scene: Scene, w: Wavefunction, minProb: real, position: Sample -> Vec3)
    modifies scene
    ensures scene.children == old(scene.children) + [PointCloud(w, minProb, position)]
  {
    var vertices, alphas := BuildBuffers(w.data, minProb, position);
    scene.Add(Points(vertices, alphas, Color(w.n, w.l, w.m)));
  }

  /** initData: adds the nucleus marker, then one point cloud for each
      wavefunction of the table the chosen key selects, in table order;
      nothing already in the scene is removed. */
  method InitData(scene: Scene, state: ViewState, table: seq<Wavefunction>,
                  position: Sample -> Vec3)
    modifies scene
    ensures scene.children == old(scene.children) + [Nucleus] + Clouds(table, state, position)
  {
    scene.Add(Nucleus);
    ghost var start := scene.children;
    ghost var added: seq<Object3D> := [];
    for i := 0 to |table|
      invariant scene.children == start + added
      invariant added == Clouds(table[..i], state, position)
    {
      var w := table[i];
      CloudsStep(table, i, state, position);
      if SelectedBy(state, w) {
        AddPointCloud(scene, w, state.minProb, position);
        added := added + [PointCloud(w, state.minProb, position)];
      }
    }
    assert table[..|table|] == table;
  }

  /** The scene-building part of init: a new, empty scene, then initData
      with the initial settings. */
  method Start(table: seq<Wavefunction>, position: Sample -> Vec3) returns (scene: Scene)
    ensures fresh(scene)
    ensures scene.children == [Nucleus] + Clouds(table, InitialState, position)
  {
    scene := new Scene();
    InitData(scene, InitialState, table, position);
  }

  /** The handler run when minProb or the chosen key changes: clearData,
      then initData with the new settings. */
  method OnSettingsChange(scene: Scene, state: ViewState, table: seq<Wavefunction>,
                          position: Sample -> Vec3)
    modifies scene
    ensures scene.children == [Nucleus] + Clouds(table, state, position)
  {
    ClearData(scene);
    InitData(scene, state, table, position);
  }
}
