/** `populate_hierarchy`: every layer with dependencies is handed to
    `add_child` of the layer found for each of its parent names. The source
    rebinds the loop variable to what `add_child` returns, so after the first
    parent each further parent receives the previous call's return value. */
module Hierarchy {
  import opened Wrappers
  import opened Values
  import opened Layers
  import opened Adapters
  import opened Environments

  /** The inner loop for one layer: `arg` is what the loop variable is bound to
      when the first of `parents` is processed. A name no layer has makes
      `get_layer` return None, and `None.add_child` raises. */
  function Chain(layers: seq<Layer>, parents: seq<string>, arg: Obj, link: (nat, Obj) -> Obj): Trace
    decreases |parents|
  {
    if parents == [] then Trace([], None)
    else
      match Lookup(layers, parents[0])
      case None => Trace([], Some(AttributeError("add_child")))
      case Some(p) => After([AddChildCall(p, arg)], Chain(layers, parents[1..], link(p, arg), link))
  }

  /** The outer loop from the layer at position `i` on. */
  function HierarchyFrom(layers: seq<Layer>, i: nat, link: (nat, Obj) -> Obj): Trace
    decreases |layers| - i
  {
    if i >= |layers| then Trace([], None)
    else
      var t := Chain(layers, layers[i].dependsOn, LayerObj(i), link);
      if t.error.Some? then t else After(t.calls, HierarchyFrom(layers, i + 1, link))
  }

  function HierarchyRun(layers: seq<Layer>, link: (nat, Obj) -> Obj): Trace {
    HierarchyFrom(layers, 0, link)
  }

  lemma AfterAfter(a: seq<Call>, b: seq<Call>, t: Trace)
    ensures After(a, After(b, t)) == After(a + b, t)
  {
    assert a + (b + t.calls) == (a + b) + t.calls;
  }

  /** The inner loop of `populate_hierarchy` for the layer at position `i`:
      `layer` starts as that layer and is rebound to each call's return value. */
  method LinkToParents(layers: seq<Layer>, i: nat, svc: Services) returns (error: Option<Error>)
    requires i < |layers|
    modifies svc
    ensures svc.log == old(svc.log) + Chain(layers, layers[i].dependsOn, LayerObj(i), svc.addChild).calls
    ensures error == Chain(layers, layers[i].dependsOn, LayerObj(i), svc.addChild).error
    ensures svc.items == old(svc.items)
  {
    var deps := layers[i].dependsOn;
    ghost var link := svc.addChild;
    var layer := LayerObj(i);
    ghost var linked: seq<Call> := [];
    assert deps[0..] == deps;
    var k := 0;
    while k < |deps|
      invariant 0 <= k <= |deps|
      invariant svc.log == old(svc.log) + linked
      invariant svc.items == old(svc.items)
      invariant Chain(layers, deps, LayerObj(i), link) == After(linked, Chain(layers, deps[k..], layer, link))
    {
      assert deps[k..][1..] == deps[k + 1..];
      var parent := Lookup(layers, deps[k]);
      if parent.None? {
        return Some(AttributeError("add_child"));
      }
      AfterAfter(linked, [AddChildCall(parent.value, layer)],
                 Chain(layers, deps[k + 1..], link(parent.value, layer), link));
      linked := linked + [AddChildCall(parent.value, layer)];
      layer := svc.AddChild(parent.value, layer);
      k := k + 1;
    }
    assert deps[k..] == [];
    assert linked + [] == linked;
    return None;
  }

  /** One turn of the outer loop whose links succeed. */
  lemma StepLinked(layers: seq<Layer>, i: nat, link: (nat, Obj) -> Obj, done: seq<Call>)
    requires i < |layers|
    requires Chain(layers, layers[i].dependsOn, LayerObj(i), link).error.None?
    ensures done + HierarchyFrom(layers, i, link).calls
         == (done + Chain(layers, layers[i].dependsOn, LayerObj(i), link).calls) + HierarchyFrom(layers, i + 1, link).calls
    ensures HierarchyFrom(layers, i, link).error == HierarchyFrom(layers, i + 1, link).error
  {
  }

  /** One turn of the outer loop whose links raise. */
  lemma StepFailed(layers: seq<Layer>, i: nat, link: (nat, Obj) -> Obj)
    requires i < |layers|
    requires Chain(layers, layers[i].dependsOn, LayerObj(i), link).error.Some?
    ensures HierarchyFrom(layers, i, link) == Chain(layers, layers[i].dependsOn, LayerObj(i), link)
  {
  }

  method PopulateHierarchy(env: Environment, svc: Services) returns (error: Option<Error>)
    modifies svc
    ensures svc.log == old(svc.log) + HierarchyRun(env.layers, svc.addChild).calls
    ensures error == HierarchyRun(env.layers, svc.addChild).error
    ensures svc.items == old(svc.items)
  {
    var layers := env.layers;
    ghost var link := svc.addChild;
    ghost var start := svc.log;
    ghost var whole := HierarchyRun(layers, link);
    var i := 0;
    while i < |layers|
      invariant 0 <= i <= |layers|
      invariant svc.items == old(svc.items)
      invariant start + whole.calls == svc.log + HierarchyFrom(layers, i, link).calls
      invariant whole.error == HierarchyFrom(layers, i, link).error
    {
      ghost var chain := Chain(layers, layers[i].dependsOn, LayerObj(i), link);
      ghost var before := svc.log;
      if |layers[i].dependsOn| > 0 {
        error := LinkToParents(layers, i, svc);
        if error.Some? {
          StepFailed(layers, i, link);
          return;
        }
      } else {
        assert chain == Trace([], None);
      }
      assert svc.log == before + chain.calls;
      StepLinked(layers, i, link, before);
      i := i + 1;
    }
    return None;
  }

  predicate Resolves(layers: seq<Layer>, id: string) {
    Lookup(layers, id).Some?
  }

  /** Every declared parent name of every layer is the name of some layer. */
  predicate AllResolve(layers: seq<Layer>) {
    forall i, k :: 0 <= i < |layers| && 0 <= k < |layers[i].dependsOn| ==> Resolves(layers, layers[i].dependsOn[k])
  }

  /** With all parent names resolvable, a layer issues one `add_child` per
      parent, to the first layer matching that name; the first call hands over
      the layer itself, every later call the previous call's return value. */
  lemma {:induction false} ChainShape(layers: seq<Layer>, parents: seq<string>, arg: Obj, link: (nat, Obj) -> Obj)
    requires forall k :: 0 <= k < |parents| ==> Resolves(layers, parents[k])
    ensures var t := Chain(layers, parents, arg, link);
      && t.error.None?
      && |t.calls| == |parents|
      && (forall k :: 0 <= k < |parents| ==> t.calls[k].AddChildCall? && Lookup(layers, parents[k]) == Some(t.calls[k].parent))
      && (|parents| > 0 ==> t.calls[0].child == arg)
      && (forall k :: 0 < k < |parents| ==> t.calls[k].child == link(t.calls[k - 1].parent, t.calls[k - 1].child))
    decreases |parents|
  {
    if parents != [] {
      var p := Lookup(layers, parents[0]).value;
      var tail := parents[1..];
      assert forall k :: 0 <= k < |tail| ==> tail[k] == parents[k + 1];
      ChainShape(layers, tail, link(p, arg), link);
      var rest := Chain(layers, tail, link(p, arg), link);
      var calls := Chain(layers, parents, arg, link).calls;
      assert calls == [AddChildCall(p, arg)] + rest.calls;
      forall k | 0 < k < |parents|
        ensures calls[k].child == link(calls[k - 1].parent, calls[k - 1].child)
      {
        assert calls[k] == rest.calls[k - 1];
        if k > 1 { assert calls[k - 1] == rest.calls[k - 2]; }
      }
    }
  }

  /** The first unresolvable parent name stops the layer's links there, with
      the AttributeError of `None.add_child`. */
  lemma {:induction false} ChainStops(layers: seq<Layer>, parents: seq<string>, arg: Obj, link: (nat, Obj) -> Obj, f: nat)
    requires f < |parents| && !Resolves(layers, parents[f])
    requires forall k :: 0 <= k < f ==> Resolves(layers, parents[k])
    ensures Chain(layers, parents, arg, link).error == Some(AttributeError("add_child"))
    ensures |Chain(layers, parents, arg, link).calls| == f
    decreases |parents|
  {
    if f > 0 {
      var p := Lookup(layers, parents[0]).value;
      var tail := parents[1..];
      assert forall k :: 0 <= k < |tail| ==> tail[k] == parents[k + 1];
      ChainStops(layers, tail, link(p, arg), link, f - 1);
    }
  }

  /** The error of one layer's links is that of an unresolvable parent name. */
  lemma {:induction false} ChainOutcome(layers: seq<Layer>, parents: seq<string>, arg: Obj, link: (nat, Obj) -> Obj)
    ensures Chain(layers, parents, arg, link).error.None? <==>
      forall k :: 0 <= k < |parents| ==> Resolves(layers, parents[k])
    ensures Chain(layers, parents, arg, link).error.Some? ==>
      Chain(layers, parents, arg, link).error == Some(AttributeError("add_child"))
    decreases |parents|
  {
    if parents != [] {
      var tail := parents[1..];
      assert forall k :: 0 <= k < |tail| ==> tail[k] == parents[k + 1];
      match Lookup(layers, parents[0])
      case None =>
      case Some(p) => ChainOutcome(layers, tail, link(p, arg), link);
    }
  }

  /** `populate_hierarchy` completes exactly when every declared parent name
      resolves; otherwise it raises the AttributeError of `None.add_child`. */
  lemma {:induction false} HierarchyOutcome(layers: seq<Layer>, i: nat, link: (nat, Obj) -> Obj)
    requires i <= |layers|
    ensures HierarchyFrom(layers, i, link).error.None? <==>
      forall j, k :: i <= j < |layers| && 0 <= k < |layers[j].dependsOn| ==> Resolves(layers, layers[j].dependsOn[k])
    ensures HierarchyFrom(layers, i, link).error.Some? ==>
      HierarchyFrom(layers, i, link).error == Some(AttributeError("add_child"))
    decreases |layers| - i
  {
    if i < |layers| {
      ChainOutcome(layers, layers[i].dependsOn, LayerObj(i), link);
      HierarchyOutcome(layers, i + 1, link);
    }
  }

  /** Layers without dependencies cause no calls at all. */
  lemma {:induction false} NoDependenciesNoCalls(layers: seq<Layer>, i: nat, link: (nat, Obj) -> Obj)
    requires forall j :: 0 <= j < |layers| ==> layers[j].dependsOn == []
    ensures HierarchyFrom(layers, i, link) == Trace([], None)
    decreases |layers| - i
  {
    if i < |layers| {
      NoDependenciesNoCalls(layers, i + 1, link);
    }
  }

  /** Number of links the layers before position `i` issue. */
  function LinksBefore(layers: seq<Layer>, i: nat): nat
    requires i <= |layers|
  {
    if i == 0 then 0 else LinksBefore(layers, i - 1) + |layers[i - 1].dependsOn|
  }

  lemma {:induction false} HierarchySplit(layers: seq<Layer>, i: nat, link: (nat, Obj) -> Obj)
    requires AllResolve(layers) && i <= |layers|
    ensures |HierarchyRun(layers, link).calls| == LinksBefore(layers, i) + |HierarchyFrom(layers, i, link).calls|
    ensures HierarchyRun(layers, link).calls[LinksBefore(layers, i)..] == HierarchyFrom(layers, i, link).calls
    decreases i
  {
    if i > 0 {
      HierarchySplit(layers, i - 1, link);
      var deps := layers[i - 1].dependsOn;
      ChainShape(layers, deps, LayerObj(i - 1), link);
      var all := HierarchyRun(layers, link).calls;
      var chain := Chain(layers, deps, LayerObj(i - 1), link);
      assert HierarchyFrom(layers, i - 1, link).calls == chain.calls + HierarchyFrom(layers, i, link).calls;
      assert all[LinksBefore(layers, i)..] == all[LinksBefore(layers, i - 1)..][|deps|..];
    }
  }

  /** When every parent name resolves, the links of the layer at position `i`
      are one contiguous run of calls, after those of all earlier layers: the
      layer's own links in the order of its parent names. */
  lemma LayerLinks(layers: seq<Layer>, i: nat, link: (nat, Obj) -> Obj)
    requires AllResolve(layers) && i < |layers|
    ensures var calls := HierarchyRun(layers, link).calls;
      var start := LinksBefore(layers, i);
      && start + |layers[i].dependsOn| <= |calls|
      && calls[start..start + |layers[i].dependsOn|] == Chain(layers, layers[i].dependsOn, LayerObj(i), link).calls
  {
    HierarchySplit(layers, i, link);
    var deps := layers[i].dependsOn;
    ChainShape(layers, deps, LayerObj(i), link);
    var chain := Chain(layers, deps, LayerObj(i), link);
    assert HierarchyFrom(layers, i, link).calls == chain.calls + HierarchyFrom(layers, i + 1, link).calls;
  }

  /** The layer itself reaches every parent only when `add_child` returns its
      argument; then each parent receives it once, in declaration order. */
  lemma {:induction false} IdentityLinkReachesEveryParent(layers: seq<Layer>, parents: seq<string>, x: Obj, link: (nat, Obj) -> Obj)
    requires forall p: nat, y: Obj :: link(p, y) == y
    requires forall k :: 0 <= k < |parents| ==> Resolves(layers, parents[k])
    ensures Chain(layers, parents, x, link).calls ==
      seq(|parents|, k requires 0 <= k < |parents| && Resolves(layers, parents[k]) =>
        AddChildCall(Lookup(layers, parents[k]).value, x))
    decreases |parents|
  {
    if parents != [] {
      var tail := parents[1..];
      assert forall k :: 0 <= k < |tail| ==> tail[k] == parents[k + 1];
      IdentityLinkReachesEveryParent(layers, tail, x, link);
    }
  }

  /** When `add_child` returns nothing, a layer's second parent is handed None
      instead of the layer. */
  lemma SecondParentGetsNone(layers: seq<Layer>, parents: seq<string>, i: nat, link: (nat, Obj) -> Obj)
    requires forall p: nat, y: Obj :: link(p, y) == NoneObj
    requires |parents| >= 2 && Resolves(layers, parents[0]) && Resolves(layers, parents[1])
    ensures var calls := Chain(layers, parents, LayerObj(i), link).calls;
      && |calls| >= 2
      && calls[0] == AddChildCall(Lookup(layers, parents[0]).value, LayerObj(i))
      && calls[1] == AddChildCall(Lookup(layers, parents[1]).value, NoneObj)
  {
    var p := Lookup(layers, parents[0]).value;
    var tail := parents[1..];
    assert Lookup(layers, tail[0]).Some?;
  }
}
