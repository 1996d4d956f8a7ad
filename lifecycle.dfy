/** Creating and deleting an environment: `create` links the hierarchy, then
    creates or updates every layer in list order and writes the outputs when
    asked to; `delete` deletes every layer in the reverse of list order. */
module Lifecycle {
  import opened Wrappers
  import opened Values
  import opened Names
  import opened Layers
  import opened Adapters
  import opened Environments
  import opened Hierarchy

  /** Creating the first `n` layers, first to last. */
  function CreateCalls(n: nat, update: bool): seq<Call> {
    if n == 0 then [] else CreateCalls(n - 1, update) + [CreateCall(n - 1, update)]
  }

  /** Deleting the first `n` layers, last to first. */
  function DeleteCalls(n: nat): seq<Call> {
    if n == 0 then [] else [DeleteCall(n - 1)] + DeleteCalls(n - 1)
  }

  /** What `write_outputs(output_file)` does: the outputs go to the file
      `OutputsPath` names, or the default name cannot be formed. */
  function WriteRun(env: Environment, outputFile: Option<string>): Trace {
    match OutputsPath(env.header.name, env.header.stage, outputFile)
    case Err(e) => Trace([], Some(e))
    case Ok(path) => Trace([WriteCall(path, Outputs(env.layers))], None)
  }

  /** What `create(output_file, update)` does. */
  function CreateRun(env: Environment, link: (nat, Obj) -> Obj, outputFile: Option<string>, update: bool): Trace {
    var h := HierarchyRun(env.layers, link);
    if h.error.Some? then h
    else if outputFile.None? then Trace(h.calls + CreateCalls(|env.layers|, update), None)
    else After(h.calls + CreateCalls(|env.layers|, update), WriteRun(env, outputFile))
  }

  method WriteOutputs(env: Environment, svc: Services, outputFile: Option<string>) returns (error: Option<Error>)
    modifies svc
    ensures svc.log == old(svc.log) + WriteRun(env, outputFile).calls
    ensures error == WriteRun(env, outputFile).error
    ensures svc.items == old(svc.items)
  {
    var path := OutputsPath(env.header.name, env.header.stage, outputFile);
    if path.Err? {
      return Some(path.error);
    }
    var outputs := CollectOutputs(env.layers);
    svc.WriteOutputs(path.value, outputs);
    return None;
  }

  method Create(env: Environment, svc: Services, outputFile: Option<string>, update: bool) returns (error: Option<Error>)
    modifies svc
    ensures svc.log == old(svc.log) + CreateRun(env, svc.addChild, outputFile, update).calls
    ensures error == CreateRun(env, svc.addChild, outputFile, update).error
    ensures svc.items == old(svc.items)
  {
    error := PopulateHierarchy(env, svc);
    if error.Some? {
      return;
    }
    ghost var linked := svc.log;
    var i := 0;
    while i < |env.layers|
      invariant 0 <= i <= |env.layers|
      invariant svc.log == linked + CreateCalls(i, update)
      invariant svc.items == old(svc.items)
    {
      svc.CreateLayer(i, update);
      i := i + 1;
    }
    if outputFile.Some? {
      error := WriteOutputs(env, svc, outputFile);
    }
  }

  method Delete(env: Environment, svc: Services)
    modifies svc
    ensures svc.log == old(svc.log) + DeleteCalls(|env.layers|)
    ensures svc.items == old(svc.items)
  {
    var i := |env.layers|;
    while i > 0
      invariant 0 <= i <= |env.layers|
      invariant old(svc.log) + DeleteCalls(|env.layers|) == svc.log + DeleteCalls(i)
      invariant svc.items == old(svc.items)
    {
      svc.DeleteLayer(i - 1);
      i := i - 1;
    }
  }

  /** Layers are created strictly in list order, each once. */
  lemma {:induction false} CreateCallsInOrder(n: nat, update: bool)
    ensures |CreateCalls(n, update)| == n
    ensures forall i :: 0 <= i < n ==> CreateCalls(n, update)[i] == CreateCall(i, update)
  {
    if n > 0 {
      CreateCallsInOrder(n - 1, update);
    }
  }

  /** Layers are deleted strictly in the reverse of list order. */
  lemma {:induction false} DeleteCallsReversed(n: nat)
    ensures |DeleteCalls(n)| == n
    ensures forall j :: 0 <= j < n ==> DeleteCalls(n)[j] == DeleteCall(n - 1 - j)
  {
    if n > 0 {
      DeleteCallsReversed(n - 1);
    }
  }

  /** `delete` asks every layer, and only the layers, to delete exactly once. */
  lemma {:induction false} DeleteEachOnce(n: nat, i: nat)
    ensures multiset(DeleteCalls(n))[DeleteCall(i)] == if i < n then 1 else 0
  {
    if n > 0 {
      var rest := DeleteCalls(n - 1);
      DeleteEachOnce(n - 1, i);
      assert DeleteCalls(n) == [DeleteCall(n - 1)] + rest;
      assert multiset(DeleteCalls(n)) == multiset([DeleteCall(n - 1)]) + multiset(rest);
    }
  }

  /** The j-th deletion undoes the (n-1-j)-th creation. */
  lemma DeleteUndoesCreateOrder(n: nat, update: bool)
    ensures var d := DeleteCalls(n); var c := CreateCalls(n, update);
      && |d| == |c| == n
      && forall j :: 0 <= j < n ==> d[j].DeleteCall? && c[n - 1 - j].CreateCall? && d[j].layer == c[n - 1 - j].layer
  {
    CreateCallsInOrder(n, update);
    DeleteCallsReversed(n);
  }

  lemma {:induction false} HierarchyOnlyLinks(layers: seq<Layer>, i: nat, link: (nat, Obj) -> Obj)
    ensures forall c :: c in HierarchyFrom(layers, i, link).calls ==> c.AddChildCall?
    decreases |layers| - i
  {
    if i < |layers| {
      ChainOnlyLinks(layers, layers[i].dependsOn, LayerObj(i), link);
      HierarchyOnlyLinks(layers, i + 1, link);
    }
  }

  lemma {:induction false} ChainOnlyLinks(layers: seq<Layer>, parents: seq<string>, arg: Obj, link: (nat, Obj) -> Obj)
    ensures forall c :: c in Chain(layers, parents, arg, link).calls ==> c.AddChildCall?
    decreases |parents|
  {
    if parents != [] && Lookup(layers, parents[0]).Some? {
      var p := Lookup(layers, parents[0]).value;
      ChainOnlyLinks(layers, parents[1..], link(p, arg), link);
    }
  }

  /** `create` fails exactly when some parent name does not resolve, and then
      it stops after the links it managed, creating nothing. */
  lemma CreateOutcome(env: Environment, link: (nat, Obj) -> Obj, outputFile: Option<string>, update: bool)
    ensures var run := CreateRun(env, link, outputFile, update);
      && (AllResolve(env.layers) <==> run.error.None?)
      && (run.error.Some? ==> run == HierarchyRun(env.layers, link) && run.error == Some(AttributeError("add_child")))
  {
    HierarchyOutcome(env.layers, 0, link);
  }

  /** With every parent name resolvable, `create` first links the hierarchy,
      then creates each layer in list order, then writes the outputs to the
      given file when one is given. */
  lemma CreateSequence(env: Environment, link: (nat, Obj) -> Obj, outputFile: Option<string>, update: bool)
    requires AllResolve(env.layers)
    ensures var h := HierarchyRun(env.layers, link);
      var run := CreateRun(env, link, outputFile, update);
      var n := |env.layers|;
      && |run.calls| == |h.calls| + n + (if outputFile.Some? then 1 else 0)
      && run.calls[..|h.calls|] == h.calls
      && (forall i :: 0 <= i < n ==> run.calls[|h.calls| + i] == CreateCall(i, update))
      && (outputFile.Some? ==> run.calls[|run.calls| - 1] == WriteCall(outputFile.value, Outputs(env.layers)))
  {
    HierarchyOutcome(env.layers, 0, link);
    CreateCallsInOrder(|env.layers|, update);
  }

  /** `create` writes the outputs exactly when it is given a file and the
      hierarchy links. */
  lemma WritesOnlyWhenAsked(env: Environment, link: (nat, Obj) -> Obj, outputFile: Option<string>, update: bool)
    ensures var run := CreateRun(env, link, outputFile, update);
      (exists c :: c in run.calls && c.WriteCall?) <==> outputFile.Some? && AllResolve(env.layers)
  {
    var h := HierarchyRun(env.layers, link);
    var n := |env.layers|;
    HierarchyOutcome(env.layers, 0, link);
    HierarchyOnlyLinks(env.layers, 0, link);
    if AllResolve(env.layers) {
      CreateCallsInOrder(n, update);
      var body := h.calls + CreateCalls(n, update);
      forall c | c in body ensures !c.WriteCall? {
        if c !in h.calls {
          var k :| 0 <= k < n && CreateCalls(n, update)[k] == c;
        }
      }
      if outputFile.Some? {
        var run := CreateRun(env, link, outputFile, update);
        assert run.calls == body + [WriteCall(outputFile.value, Outputs(env.layers))];
        assert run.calls[|body|] in run.calls;
      }
    }
  }
}
