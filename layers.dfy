/** What the orchestrator reads of a layer, lookup by name, and the aggregation
    of the layers' outputs (the `outputs` property of the environment). */
module Layers {
  import opened Wrappers
  import opened Values

  /** A layer as humilis/layer.py builds it: its logical name, the name of its
      stack, the names of the layers it depends on and its outputs (None until
      the stack reports some). */
  datatype Layer = Layer(
    name: string,
    cfName: string,
    dependsOn: seq<string>,
    outputs: Option<map<string, Value>>)

  /** Layer name to that layer's outputs. */
  type OutputsMap = map<string, map<string, Value>>

  predicate Matches(layer: Layer, id: string) {
    layer.cfName == id || layer.name == id
  }

  /** Position of the first layer whose stack name or logical name is `id`. */
  function Lookup(layers: seq<Layer>, id: string): (r: Option<nat>)
    ensures r.Some? ==> r.value < |layers| && Matches(layers[r.value], id)
    ensures r.Some? ==> forall j :: 0 <= j < r.value ==> !Matches(layers[j], id)
    ensures r.None? <==> forall j :: 0 <= j < |layers| ==> !Matches(layers[j], id)
    decreases |layers|
  {
    if layers == [] then None
    else if Matches(layers[0], id) then Some(0)
    else
      match Lookup(layers[1..], id)
      case None => None
      case Some(k) => Some(k + 1)
  }

  /** `get_layer`: the first layer matching `id`, None when no layer does. */
  function GetLayer(layers: seq<Layer>, id: string): (r: Option<Layer>)
    ensures r.None? <==> forall j :: 0 <= j < |layers| ==> !Matches(layers[j], id)
    ensures r.Some? ==>
      exists i :: 0 <= i < |layers| && layers[i] == r.value && Matches(layers[i], id)
        && forall j :: 0 <= j < i ==> !Matches(layers[j], id)
  {
    match Lookup(layers, id)
    case None => None
    case Some(i) => Some(layers[i])
  }

  /** The outputs of the layers, in list order; a later layer with the same
      name overwrites an earlier one. */
  function Outputs(layers: seq<Layer>): OutputsMap
    decreases |layers|
  {
    if layers == [] then map[]
    else
      var last := layers[|layers| - 1];
      var prior := Outputs(layers[..|layers| - 1]);
      if last.outputs.Some? then prior[last.name := last.outputs.value] else prior
  }

  /** The property's loop: one dictionary built up layer by layer. */
  method CollectOutputs(layers: seq<Layer>) returns (outputs: OutputsMap)
    ensures outputs == Outputs(layers)
  {
    outputs := map[];
    var i := 0;
    while i < |layers|
      invariant 0 <= i <= |layers|
      invariant outputs == Outputs(layers[..i])
    {
      var ly := layers[i].outputs;
      if ly.Some? {
        outputs := outputs[layers[i].name := ly.value];
      }
      i := i + 1;
      assert layers[..i][..i - 1] == layers[..i - 1];
    }
    assert layers[..i] == layers;
  }

  /** A name is a key of the outputs exactly when some layer of that name has
      outputs (an empty mapping counts, only None is left out). */
  lemma {:induction false} OutputsKeys(layers: seq<Layer>, k: string)
    ensures k in Outputs(layers) <==>
      exists i :: 0 <= i < |layers| && layers[i].name == k && layers[i].outputs.Some?
    decreases |layers|
  {
    if layers != [] {
      var init := layers[..|layers| - 1];
      OutputsKeys(init, k);
      assert forall i :: 0 <= i < |init| ==> init[i] == layers[i];
    }
  }

  /** The last layer of a name that has outputs provides the value under that
      name, unchanged. */
  lemma {:induction false} OutputsValue(layers: seq<Layer>, i: nat)
    requires i < |layers| && layers[i].outputs.Some?
    requires forall j :: i < j < |layers| && layers[j].name == layers[i].name ==> layers[j].outputs.None?
    ensures layers[i].name in Outputs(layers)
    ensures Outputs(layers)[layers[i].name] == layers[i].outputs.value
    decreases |layers|
  {
    if i < |layers| - 1 {
      var init := layers[..|layers| - 1];
      assert init[i] == layers[i];
      OutputsValue(init, i);
    }
  }

  predicate DistinctNames(layers: seq<Layer>) {
    forall i, j :: 0 <= i < j < |layers| ==> layers[i].name != layers[j].name
  }

  /** With distinct layer names the outputs hold every layer that has outputs,
      under its own name, and nothing else. */
  lemma OutputsOfDistinctLayers(layers: seq<Layer>)
    requires DistinctNames(layers)
    ensures Outputs(layers).Keys == set i | 0 <= i < |layers| && layers[i].outputs.Some? :: layers[i].name
    ensures forall i :: 0 <= i < |layers| && layers[i].outputs.Some? ==>
      Outputs(layers)[layers[i].name] == layers[i].outputs.value
  {
    forall k ensures k in Outputs(layers) <==> k in set i | 0 <= i < |layers| && layers[i].outputs.Some? :: layers[i].name {
      OutputsKeys(layers, k);
    }
    forall i | 0 <= i < |layers| && layers[i].outputs.Some?
      ensures Outputs(layers)[layers[i].name] == layers[i].outputs.value
    {
      OutputsValue(layers, i);
    }
  }
}
