/** Layered configuration, packages/config-engine/src/merge.ts. */
module Merging {
  import opened Prelude
  import opened Json

  type Path = seq<string>

  /** Objects merge key by key; anything else replaces what was there. */
  function Merge(a: Json, b: Json): Json
    decreases b
  {
    if !a.Obj? || !b.Obj? then b
    else Obj(map k | k in a.fields.Keys + b.fields.Keys ::
               if k !in b.fields then a.fields[k]
               else if k !in a.fields then b.fields[k]
               else Merge(a.fields[k], b.fields[k]))
  }

  /** The loop of the source over the entries of the patch. */
  method DeepMerge(base: Json, patch: Json) returns (r: Json)
    requires patch.Obj?
    ensures r == Merge(base, patch)
    decreases patch
  {
    if !base.Obj? { return patch; }
    var out := base.fields;
    var todo := patch.fields.Keys;
    while todo != {}
      invariant todo <= patch.fields.Keys
      invariant out.Keys == base.fields.Keys + (patch.fields.Keys - todo)
      invariant forall k :: k in out && (k !in patch.fields || k in todo) ==> out[k] == base.fields[k]
      invariant forall k :: k in patch.fields && k !in todo ==>
        out[k] == if k in base.fields then Merge(base.fields[k], patch.fields[k]) else patch.fields[k]
    {
      var key :| key in todo;
      var value := patch.fields[key];
      if key in out && out[key].Obj? && value.Obj? {
        var merged := DeepMerge(out[key], value);
        out := out[key := merged];
      } else {
        out := out[key := value];
      }
      todo := todo - {key};
    }
    r := Obj(out);
  }

  // ---- What the merge has at each path ----

  /** An empty object is an object, an array is a leaf. */
  datatype Node = Absent | Leaf(value: Json) | Object

  function NodeAt(v: Json, p: Path): Node {
    if !v.Obj? then (if p == [] then Leaf(v) else Absent)
    else if p == [] then Object
    else if p[0] in v.fields then NodeAt(v.fields[p[0]], p[1..])
    else Absent
  }

  /** A layer settles a path if it has a leaf or an object there, or a leaf at a prefix. */
  ghost predicate Settles(v: Json, p: Path) {
    NodeAt(v, p) != Absent || exists i :: 0 <= i < |p| && NodeAt(v, p[..i]).Leaf?
  }

  predicate SettlesFrom(v: Json, p: Path) {
    !v.Obj? || p == [] || (p[0] in v.fields && SettlesFrom(v.fields[p[0]], p[1..]))
  }

  lemma {:induction false} SettlesIs(v: Json, p: Path)
    ensures Settles(v, p) <==> SettlesFrom(v, p)
    decreases |p|
  {
    if p != [] {
      if !v.Obj? {
        assert NodeAt(v, p[..0]).Leaf?;
      } else {
        assert p[..0] == [];
        forall i | 0 < i <= |p|
          ensures NodeAt(v, p[..i]) == if p[0] in v.fields then NodeAt(v.fields[p[0]], p[1..][..i - 1]) else Absent
        {
          assert p[..i][1..] == p[1..][..i - 1];
        }
        if p[0] in v.fields {
          SettlesIs(v.fields[p[0]], p[1..]);
          if Settles(v.fields[p[0]], p[1..]) && NodeAt(v, p) == Absent {
            var i :| 0 <= i < |p[1..]| && NodeAt(v.fields[p[0]], p[1..][..i]).Leaf?;
            assert NodeAt(v, p[..i + 1]).Leaf?;
          }
        }
      }
    }
  }

  lemma {:induction false} UnsettledIsAbsent(v: Json, p: Path)
    ensures !SettlesFrom(v, p) ==> NodeAt(v, p) == Absent
    decreases |p|
  {
    if p != [] && v.Obj? && p[0] in v.fields { UnsettledIsAbsent(v.fields[p[0]], p[1..]); }
  }

  lemma {:induction false} MergeNode(a: Json, b: Json, p: Path)
    ensures NodeAt(Merge(a, b), p) == if SettlesFrom(b, p) then NodeAt(b, p) else NodeAt(a, p)
    decreases |p|
  {
    UnsettledIsAbsent(b, p);
    if a.Obj? && b.Obj? && p != [] {
      var k := p[0];
      if k in a.fields && k in b.fields {
        MergeNode(a.fields[k], b.fields[k], p[1..]);
      }
    }
  }

  /** The merge law: at every path the merge has what the patch has wherever the patch settles
      it (a leaf there or at a prefix, or an object there), and what the base has elsewhere. */
  lemma MergeLaw(a: Json, b: Json, p: Path)
    ensures NodeAt(Merge(a, b), p) == if Settles(b, p) then NodeAt(b, p) else NodeAt(a, p)
  {
    SettlesIs(b, p);
    MergeNode(a, b, p);
  }

  /** A tree is what it has at its paths. */
  lemma {:induction false} SameNodes(v: Json, w: Json)
    requires forall p :: NodeAt(v, p) == NodeAt(w, p)
    ensures v == w
    decreases v
  {
    assert NodeAt(v, []) == NodeAt(w, []);
    if v.Obj? {
      forall k ensures k in v.fields <==> k in w.fields {
        assert NodeAt(v, [k]) == NodeAt(w, [k]);
        assert [k][0] == k && [k][1..] == [];
        if k in v.fields { RootIsThere(v.fields[k]); }
        if k in w.fields { RootIsThere(w.fields[k]); }
      }
      forall k | k in v.fields ensures v.fields[k] == w.fields[k] {
        forall p ensures NodeAt(v.fields[k], p) == NodeAt(w.fields[k], p) {
          var q := [k] + p;
          assert q[0] == k && q[1..] == p;
          assert NodeAt(v, q) == NodeAt(w, q);
          assert NodeAt(v, q) == NodeAt(v.fields[k], p) && NodeAt(w, q) == NodeAt(w.fields[k], p);
        }
        SameNodes(v.fields[k], w.fields[k]);
      }
    }
  }

  lemma RootIsThere(v: Json)
    ensures NodeAt(v, []) != Absent
  {
  }

  /** Applying a layer twice is applying it once. */
  lemma MergeIdempotent(a: Json, b: Json)
    ensures Merge(Merge(a, b), b) == Merge(a, b) && Merge(a, a) == a
  {
    forall p
      ensures NodeAt(Merge(Merge(a, b), b), p) == NodeAt(Merge(a, b), p) && NodeAt(Merge(a, a), p) == NodeAt(a, p)
    {
      MergeLaw(Merge(a, b), b, p);
      MergeLaw(a, b, p);
      MergeLaw(a, a, p);
    }
    SameNodes(Merge(Merge(a, b), b), Merge(a, b));
    SameNodes(Merge(a, a), a);
  }

  /** Layer b replaces something of a's by a leaf, and c puts an object in its place that is
      silent about p: merging c onto b first then lets a's value at p show again. */
  ghost predicate Revives(a: Json, b: Json, c: Json, p: Path) {
    && NodeAt(a, p) != Absent
    && (exists i :: 0 <= i < |p| && NodeAt(b, p[..i]).Leaf? && NodeAt(c, p[..i]).Object?)
    && !Settles(c, p)
  }

  lemma {:induction false} RevivesIs(b: Json, c: Json, p: Path)
    ensures (exists i :: 0 <= i < |p| && NodeAt(b, p[..i]).Leaf? && NodeAt(c, p[..i]).Object?) && !SettlesFrom(c, p)
            <==> SettlesFrom(b, p) && !SettlesFrom(c, p) && !SettlesFrom(Merge(b, c), p)
    decreases |p|
  {
    if p != [] && c.Obj? {
      assert p[..0] == [];
      if !b.Obj? {
        assert NodeAt(b, p[..0]).Leaf? && NodeAt(c, p[..0]).Object?;
      } else {
        var k := p[0];
        forall i | 0 < i <= |p|
          ensures NodeAt(b, p[..i]) == if k in b.fields then NodeAt(b.fields[k], p[1..][..i - 1]) else Absent
          ensures NodeAt(c, p[..i]) == if k in c.fields then NodeAt(c.fields[k], p[1..][..i - 1]) else Absent
        {
          assert p[..i][1..] == p[1..][..i - 1];
        }
        if k in b.fields && k in c.fields {
          var b', c', p' := b.fields[k], c.fields[k], p[1..];
          RevivesIs(b', c', p');
          if i :| 0 <= i < |p'| && NodeAt(b', p'[..i]).Leaf? && NodeAt(c', p'[..i]).Object? {
            assert NodeAt(b, p[..i + 1]).Leaf? && NodeAt(c, p[..i + 1]).Object?;
          }
        }
      }
    }
  }

  /** Merging is associative exactly when no path is revived. */
  lemma MergeAssociative(a: Json, b: Json, c: Json)
    ensures Merge(Merge(a, b), c) == Merge(a, Merge(b, c)) <==> forall p :: !Revives(a, b, c, p)
  {
    var left, right := Merge(Merge(a, b), c), Merge(a, Merge(b, c));
    forall p ensures NodeAt(left, p) == NodeAt(right, p) <==> !Revives(a, b, c, p) {
      BothNodes(a, b, c, p);
    }
    if forall p :: !Revives(a, b, c, p) {
      SameNodes(left, right);
    } else {
      var p :| Revives(a, b, c, p);
      assert NodeAt(left, p) != NodeAt(right, p);
    }
  }

  lemma BothNodes(a: Json, b: Json, c: Json, p: Path)
    ensures NodeAt(Merge(Merge(a, b), c), p) == NodeAt(Merge(a, Merge(b, c)), p) <==> !Revives(a, b, c, p)
  {
    MergeNode(Merge(a, b), c, p);
    MergeNode(a, b, p);
    MergeNode(a, Merge(b, c), p);
    MergeNode(b, c, p);
    RevivesIs(b, c, p);
    SettlesIs(b, p);
    SettlesIs(c, p);
    SettlesIs(Merge(b, c), p);
    SettledByMerge(b, c, p);
  }

  lemma {:induction false} SettledByMerge(b: Json, c: Json, p: Path)
    ensures SettlesFrom(c, p) ==> SettlesFrom(Merge(b, c), p)
    ensures SettlesFrom(Merge(b, c), p) ==> SettlesFrom(b, p) || SettlesFrom(c, p)
    ensures SettlesFrom(b, p) && !SettlesFrom(Merge(b, c), p) ==> NodeAt(b, p) == Absent
    decreases |p|
  {
    if p != [] && b.Obj? && c.Obj? && p[0] in b.fields && p[0] in c.fields {
      SettledByMerge(b.fields[p[0]], c.fields[p[0]], p[1..]);
    }
  }

  /** In particular for layers that agree on where they have objects and where leaves. */
  lemma AgreeingLayersAssociate(a: Json, b: Json, c: Json)
    requires forall p :: !(NodeAt(b, p).Leaf? && NodeAt(c, p).Object?)
    ensures Merge(Merge(a, b), c) == Merge(a, Merge(b, c))
  {
    MergeAssociative(a, b, c);
  }

  // ---- Resolution ----

  datatype ConfigLayers = ConfigLayers(
    compiledDefaults: Json, environment: Option<Json>, secretReferences: Option<Json>,
    platformDesiredState: Option<Json>, tenantOverrides: Option<Json>, workspaceOverrides: Option<Json>)

  predicate Layered(l: Option<Json>) {
    l.Some? ==> l.value.Obj?
  }

  predicate WellTyped(l: ConfigLayers) {
    && Layered(l.environment) && Layered(l.secretReferences) && Layered(l.platformDesiredState)
    && Layered(l.tenantOverrides) && Layered(l.workspaceOverrides)
  }

  function Present(l: Option<Json>): seq<Json> {
    match l case None => [] case Some(v) => [v]
  }

  /** The layers that are given, lowest precedence first. */
  function Layers(l: ConfigLayers): seq<Json> {
    [l.compiledDefaults] + Present(l.environment) + Present(l.secretReferences)
    + Present(l.platformDesiredState) + Present(l.tenantOverrides) + Present(l.workspaceOverrides)
  }

  function MergeAll(layers: seq<Json>): Json
    requires layers != []
  {
    if |layers| == 1 then layers[0] else Merge(MergeAll(layers[..|layers| - 1]), layers[|layers| - 1])
  }

  method ApplyLayer(base: Json, layer: Option<Json>, ghost below: seq<Json>) returns (r: Json)
    requires Layered(layer) && below != [] && base == MergeAll(below)
    ensures r == MergeAll(below + Present(layer))
  {
    if layer.None? {
      assert below + Present(layer) == below;
      return base;
    }
    r := DeepMerge(base, layer.value);
    assert (below + [layer.value])[..|below|] == below;
  }

  method ResolveDesiredState(l: ConfigLayers) returns (r: Json)
    requires WellTyped(l)
    ensures r == MergeAll(Layers(l))
  {
    ghost var below := [l.compiledDefaults];
    r := l.compiledDefaults;
    r := ApplyLayer(r, l.environment, below);
    below := below + Present(l.environment);
    r := ApplyLayer(r, l.secretReferences, below);
    below := below + Present(l.secretReferences);
    r := ApplyLayer(r, l.platformDesiredState, below);
    below := below + Present(l.platformDesiredState);
    r := ApplyLayer(r, l.tenantOverrides, below);
    below := below + Present(l.tenantOverrides);
    r := ApplyLayer(r, l.workspaceOverrides, below);
  }

  predicate Decides(l: Option<Json>, p: Path) {
    l.Some? && SettlesFrom(l.value, p)
  }

  lemma DecidesIs(l: Option<Json>, p: Path)
    ensures Decides(l, p) <==> l.Some? && Settles(l.value, p)
  {
    if l.Some? { SettlesIs(l.value, p); }
  }

  lemma OneLayerMore(below: seq<Json>, l: Option<Json>, p: Path)
    requires below != []
    ensures NodeAt(MergeAll(below + Present(l)), p)
            == if Decides(l, p) then NodeAt(l.value, p) else NodeAt(MergeAll(below), p)
  {
    if l.None? {
      assert below + Present(l) == below;
    } else {
      assert (below + Present(l))[..|below|] == below;
      MergeNode(MergeAll(below), l.value, p);
    }
  }

  /** Workspace overrides come before tenant overrides, these before the platform's desired state,
      this before secret references, these before the environment, and that before the defaults. */
  lemma Precedence(l: ConfigLayers, p: Path)
    ensures NodeAt(MergeAll(Layers(l)), p)
            == if Decides(l.workspaceOverrides, p) then NodeAt(l.workspaceOverrides.value, p)
               else if Decides(l.tenantOverrides, p) then NodeAt(l.tenantOverrides.value, p)
               else if Decides(l.platformDesiredState, p) then NodeAt(l.platformDesiredState.value, p)
               else if Decides(l.secretReferences, p) then NodeAt(l.secretReferences.value, p)
               else if Decides(l.environment, p) then NodeAt(l.environment.value, p)
               else NodeAt(l.compiledDefaults, p)
  {
    var one := [l.compiledDefaults];
    var two := one + Present(l.environment);
    var three := two + Present(l.secretReferences);
    var four := three + Present(l.platformDesiredState);
    var five := four + Present(l.tenantOverrides);
    hide MergeAll, NodeAt, Decides;
    OneLayerMore(one, l.environment, p);
    OneLayerMore(two, l.secretReferences, p);
    OneLayerMore(three, l.platformDesiredState, p);
    OneLayerMore(four, l.tenantOverrides, p);
    OneLayerMore(five, l.workspaceOverrides, p);
    OnlyDefaults(l.compiledDefaults);
  }

  lemma OnlyDefaults(v: Json)
    ensures MergeAll([v]) == v
  {
  }

  /** Every path of the resolved state is decided by the last layer that settles it: a later
      layer never loses to an earlier one, and layers that are silent change nothing. */
  lemma {:induction false} LastLayerWins(layers: seq<Json>, p: Path, j: nat)
    requires j < |layers| && (j == 0 || Settles(layers[j], p))
    requires forall i :: j < i < |layers| ==> !Settles(layers[i], p)
    ensures NodeAt(MergeAll(layers), p) == NodeAt(layers[j], p)
  {
    var n := |layers| - 1;
    if n > 0 {
      MergeLaw(MergeAll(layers[..n]), layers[n], p);
      if j < n { LastLayerWins(layers[..n], p, j); }
    }
  }
}
