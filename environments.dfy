/** Building an environment from its parsed specification document
    (`Environment.__init__`): the header fields, the ordered layer list built
    from the enabled entries, the vault layer and the secrets table name. */
module Environments {
  import opened Wrappers
  import opened Values
  import opened Names
  import opened Layers

  /** The tag every stack of the environment carries, holding its name. */
  const ProvenanceTag := "humilis:environment"
  /** The vault layer's name when the caller names none. */
  const DefaultVault := "secrets-vault"

  /** What a layer sees of its environment when it is constructed. */
  datatype Header = Header(
    name: string,
    stage: Option<string>,
    basedir: string,
    tags: map<string, Value>,
    snsTopicArn: Value)

  datatype Environment = Environment(
    header: Header,
    layers: seq<Layer>,
    vaultLayer: Option<Layer>,
    secretsTable: string)

  /** `Layer(env, layer_name, **layer_params)` of humilis/layer.py. */
  type LayerConstructor = (Header, Value, map<string, Value>) -> Layer

  /** `entry.get('layer', None)` */
  function LayerName(entry: Value): Value {
    if entry.Dict? then GetOr(entry.fields, "layer", Null) else Null
  }

  /** The exception an entry raises before it is looked at further: an entry
      that is not a mapping has no `get`, one without a name is malformed. */
  function EntryError(path: string, entry: Value): Option<Error> {
    if !entry.Dict? then Some(AttributeError("get"))
    else if LayerName(entry) == Null then Some(FileFormatError(path, Some(entry)))
    else None
  }

  /** `entry.get('disable', False)` is truthy. */
  predicate Disabled(entry: Value) {
    entry.Dict? && Truthy(GetOr(entry.fields, "disable", Bool(false)))
  }

  /** The parameters forwarded to the layer: the entry without its name. */
  function Params(entry: Value): map<string, Value> {
    if entry.Dict? then entry.fields - {"layer"} else map[]
  }

  /** Layers built so far followed by the outcome of the remaining entries. */
  function Prepend(built: seq<Layer>, rest: Result<seq<Layer>, Error>): Result<seq<Layer>, Error> {
    match rest
    case Ok(layers) => Ok(built + layers)
    case Err(e) => Err(e)
  }

  /** The loop over the layer entries, as a function of the entries. */
  function LayerList(h: Header, path: string, entries: seq<Value>, mk: LayerConstructor): Result<seq<Layer>, Error>
    decreases |entries|
  {
    if entries == [] then Ok([])
    else
      var e := entries[0];
      match EntryError(path, e)
      case Some(err) => Err(err)
      case None =>
        var rest := LayerList(h, path, entries[1..], mk);
        if Disabled(e) then rest else Prepend([mk(h, LayerName(e), Params(e))], rest)
  }

  /** The entries that are not disabled, in their original order. */
  function Enabled(entries: seq<Value>): seq<Value>
    decreases |entries|
  {
    if entries == [] then []
    else (if Disabled(entries[0]) then [] else [entries[0]]) + Enabled(entries[1..])
  }

  function CountDisabled(entries: seq<Value>): nat
    decreases |entries|
  {
    if entries == [] then 0
    else (if Disabled(entries[0]) then 1 else 0) + CountDisabled(entries[1..])
  }

  /** One layer per entry, constructed from the entry's name and parameters. */
  function Instantiate(h: Header, entries: seq<Value>, mk: LayerConstructor): seq<Layer> {
    seq(|entries|, k requires 0 <= k < |entries| => mk(h, LayerName(entries[k]), Params(entries[k])))
  }

  /** Iterating over `meta.get('layers', [])`: a list yields its entries, a
      non-empty mapping or string yields text, which has no `get`, and other
      values cannot be iterated. */
  function Entries(v: Value): Result<seq<Value>, Error> {
    match v
    case List(items) => Ok(items)
    case Dict(fields) => if fields == map[] then Ok([]) else Err(AttributeError("get"))
    case Str(s) => if s == "" then Ok([]) else Err(AttributeError("get"))
    case _ => Err(TypeError("iter"))
  }

  /** `yaml.load(f).get(name)` and the check that it is not empty. */
  function Meta(path: string, doc: Value): Result<map<string, Value>, Error> {
    if !doc.Dict? then Err(AttributeError("get"))
    else
      var meta := GetOr(doc.fields, EnvName(path), Null);
      var size := Len(meta);
      if size.None? then Err(TypeError("len"))
      else if size.value == 0 then Err(FileFormatError(path, None))
      else if !meta.Dict? then Err(AttributeError("get"))
      else Ok(meta.fields)
  }

  /** `vault_layer or 'secrets-vault'` */
  function VaultId(vaultOverride: Option<string>): string {
    if vaultOverride.Some? && vaultOverride.value != "" then vaultOverride.value else DefaultVault
  }

  /** The header `__init__` sets up; the tags are stamped with the provenance
      tag, so they must be a mapping. */
  function MakeHeader(path: string, stage: Option<string>, meta: map<string, Value>): Result<Header, Error> {
    var name := EnvName(path);
    var tags := GetOr(meta, "tags", Dict(map[]));
    if !tags.Dict? then Err(TypeError("item assignment"))
    else Ok(Header(name, StageOf(stage), DirName(path), tags.fields[ProvenanceTag := Str(name)],
                   GetOr(meta, "sns-topic-arn", List([]))))
  }

  /** The environment `__init__` builds, or the exception it raises. */
  function Construct(path: string, doc: Value, stage: Option<string>, vaultOverride: Option<string>,
                     mk: LayerConstructor): Result<Environment, Error>
  {
    match Meta(path, doc)
    case Err(e) => Err(e)
    case Ok(meta) =>
      match MakeHeader(path, stage, meta)
      case Err(e) => Err(e)
      case Ok(h) =>
        match Entries(GetOr(meta, "layers", List([])))
        case Err(e) => Err(e)
        case Ok(entries) =>
          match LayerList(h, path, entries, mk)
          case Err(e) => Err(e)
          case Ok(layers) =>
            Ok(Environment(h, layers, GetLayer(layers, VaultId(vaultOverride)), TableName(h.name, h.stage)))
  }

  lemma PrependNil(rest: Result<seq<Layer>, Error>)
    ensures Prepend([], rest) == rest
  {
    if rest.Ok? { assert [] + rest.value == rest.value; }
  }

  lemma PrependAppend(built: seq<Layer>, l: Layer, rest: Result<seq<Layer>, Error>)
    ensures Prepend(built, Prepend([l], rest)) == Prepend(built + [l], rest)
  {
    if rest.Ok? { assert built + ([l] + rest.value) == (built + [l]) + rest.value; }
  }

  /** `Environment.__init__` on an already parsed document. */
  method Init(path: string, doc: Value, stage: Option<string>, vaultOverride: Option<string>,
              mk: LayerConstructor) returns (r: Result<Environment, Error>)
    ensures r == Construct(path, doc, stage, vaultOverride, mk)
  {
    var name := EnvName(path);
    var envStage := StageOf(stage);
    var basedir := DirName(path);
    if !doc.Dict? {
      return Err(AttributeError("get"));
    }
    var meta := GetOr(doc.fields, name, Null);
    var size := Len(meta);
    if size.None? {
      return Err(TypeError("len"));
    }
    if size.value == 0 {
      return Err(FileFormatError(path, None));
    }
    if !meta.Dict? {
      return Err(AttributeError("get"));
    }
    var snsTopicArn := GetOr(meta.fields, "sns-topic-arn", List([]));
    var tags := GetOr(meta.fields, "tags", Dict(map[]));
    if !tags.Dict? {
      return Err(TypeError("item assignment"));
    }
    var h := Header(name, envStage, basedir, tags.fields[ProvenanceTag := Str(name)], snsTopicArn);
    var entries := Entries(GetOr(meta.fields, "layers", List([])));
    if entries.Err? {
      return Err(entries.error);
    }
    var es := entries.value;
    var layers: seq<Layer> := [];
    var i := 0;
    assert es[0..] == es;
    PrependNil(LayerList(h, path, es, mk));
    while i < |es|
      invariant 0 <= i <= |es|
      invariant LayerList(h, path, es, mk) == Prepend(layers, LayerList(h, path, es[i..], mk))
    {
      var e := es[i];
      assert es[i..][1..] == es[i + 1..];
      if !e.Dict? {
        return Err(AttributeError("get"));
      }
      var layerName := GetOr(e.fields, "layer", Null);
      if layerName == Null {
        return Err(FileFormatError(path, Some(e)));
      }
      if Truthy(GetOr(e.fields, "disable", Bool(false))) {
        i := i + 1;
        continue;
      }
      var params := e.fields - {"layer"};
      ghost var rest := LayerList(h, path, es[i + 1..], mk);
      PrependAppend(layers, mk(h, layerName, params), rest);
      layers := layers + [mk(h, layerName, params)];
      i := i + 1;
    }
    assert es[i..] == [];
    assert layers + [] == layers;
    assert LayerList(h, path, es, mk) == Ok(layers);
    r := Ok(Environment(h, layers, GetLayer(layers, VaultId(vaultOverride)), TableName(name, envStage)));
  }

  predicate WellFormed(path: string, entries: seq<Value>) {
    forall i :: 0 <= i < |entries| ==> EntryError(path, entries[i]).None?
  }

  /** The layer list is built exactly when every entry, disabled or not, is a
      mapping with a name; otherwise the first offending entry decides the
      exception. */
  lemma {:induction false} LayerListOutcome(h: Header, path: string, entries: seq<Value>, mk: LayerConstructor)
    ensures LayerList(h, path, entries, mk).Ok? <==> WellFormed(path, entries)
    ensures LayerList(h, path, entries, mk).Err? ==>
      exists i :: 0 <= i < |entries| && EntryError(path, entries[i]) == Some(LayerList(h, path, entries, mk).error)
        && forall j :: 0 <= j < i ==> EntryError(path, entries[j]).None?
    decreases |entries|
  {
    if entries != [] {
      var tail := entries[1..];
      LayerListOutcome(h, path, tail, mk);
      assert forall i :: 0 <= i < |tail| ==> tail[i] == entries[i + 1];
      if EntryError(path, entries[0]).None? && LayerList(h, path, entries, mk).Err? {
        var i :| 0 <= i < |tail| && EntryError(path, tail[i]) == Some(LayerList(h, path, tail, mk).error)
          && forall j :: 0 <= j < i ==> EntryError(path, tail[j]).None?;
        assert EntryError(path, entries[i + 1]) == Some(LayerList(h, path, entries, mk).error);
        assert forall j :: 0 <= j < i + 1 ==> EntryError(path, entries[j]).None? by {
          forall j | 0 < j < i + 1 ensures EntryError(path, entries[j]).None? {
            assert entries[j] == tail[j - 1];
          }
        }
      }
    }
  }

  /** For well-formed entries the layer list holds one layer per enabled entry,
      in the entries' order, each built from the entry's name and the entry
      without its name. */
  lemma {:induction false} LayerListIsEnabled(h: Header, path: string, entries: seq<Value>, mk: LayerConstructor)
    requires WellFormed(path, entries)
    ensures LayerList(h, path, entries, mk) == Ok(Instantiate(h, Enabled(entries), mk))
    decreases |entries|
  {
    if entries != [] {
      var tail := entries[1..];
      assert WellFormed(path, tail) by {
        forall i | 0 <= i < |tail| ensures EntryError(path, tail[i]).None? { assert tail[i] == entries[i + 1]; }
      }
      LayerListIsEnabled(h, path, tail, mk);
      var e := entries[0];
      if Disabled(e) {
        assert Enabled(entries) == Enabled(tail);
      } else {
        assert Enabled(entries) == [e] + Enabled(tail);
        var whole := Instantiate(h, Enabled(entries), mk);
        var part := Instantiate(h, Enabled(tail), mk);
        assert whole == [mk(h, LayerName(e), Params(e))] + part by {
          forall k | 0 <= k < |whole| ensures whole[k] == ([mk(h, LayerName(e), Params(e))] + part)[k] {
            if k > 0 { assert Enabled(entries)[k] == Enabled(tail)[k - 1]; }
          }
        }
      }
    }
  }

  /** N entries of which D are disabled give N - D layers. */
  lemma {:induction false} EnabledCount(entries: seq<Value>)
    ensures |Enabled(entries)| == |entries| - CountDisabled(entries)
    decreases |entries|
  {
    if entries != [] {
      EnabledCount(entries[1..]);
    }
  }

  /** An entry is kept exactly when it is one of the entries and not disabled. */
  lemma {:induction false} EnabledMembers(entries: seq<Value>, e: Value)
    ensures e in Enabled(entries) <==> e in entries && !Disabled(e)
    decreases |entries|
  {
    if entries != [] {
      EnabledMembers(entries[1..], e);
      assert entries == [entries[0]] + entries[1..];
    }
  }

  /** A constructed environment: named after its file, the stage upper-cased,
      the provenance tag stamped over any supplied value with every other tag
      kept, the table name derived from name and stage, and the vault layer the
      lookup of the override or `secrets-vault` (possibly None). */
  lemma ConstructedHeader(path: string, doc: Value, stage: Option<string>, vaultOverride: Option<string>,
                          mk: LayerConstructor)
    requires Construct(path, doc, stage, vaultOverride, mk).Ok?
    ensures var env := Construct(path, doc, stage, vaultOverride, mk).value;
      && var meta := Meta(path, doc).value;
      && Meta(path, doc).Ok?
      && env.header.name == EnvName(path)
      && env.header.stage == StageOf(stage)
      && env.header.basedir == DirName(path)
      && env.header.tags[ProvenanceTag] == Str(env.header.name)
      && (forall k :: k != ProvenanceTag ==>
            (k in env.header.tags <==> "tags" in meta && k in meta["tags"].fields)
            && (k in env.header.tags ==> env.header.tags[k] == meta["tags"].fields[k]))
      && env.secretsTable == "secrets_" + env.header.name + "_" + StageText(env.header.stage)
      && env.vaultLayer == GetLayer(env.layers, VaultId(vaultOverride))
  {
  }

  /** The layers of a constructed environment are the enabled entries, in
      order: with N entries of which D are disabled there are N - D of them. */
  lemma ConstructedLayers(path: string, doc: Value, stage: Option<string>, vaultOverride: Option<string>,
                          mk: LayerConstructor, entries: seq<Value>)
    requires Meta(path, doc).Ok? && GetOr(Meta(path, doc).value, "layers", List([])) == List(entries)
    requires Construct(path, doc, stage, vaultOverride, mk).Ok?
    ensures var env := Construct(path, doc, stage, vaultOverride, mk).value;
      && env.layers == Instantiate(env.header, Enabled(entries), mk)
      && |env.layers| == |entries| - CountDisabled(entries)
  {
    var meta := Meta(path, doc).value;
    var h := MakeHeader(path, stage, meta).value;
    assert Entries(GetOr(meta, "layers", List([]))) == Ok(entries);
    LayerListOutcome(h, path, entries, mk);
    LayerListIsEnabled(h, path, entries, mk);
    EnabledCount(entries);
  }

  /** An entry without a name makes construction fail with FileFormatError,
      even when it is disabled, once every entry up to it is a mapping. */
  lemma NamelessEntryRejected(path: string, doc: Value, stage: Option<string>, vaultOverride: Option<string>,
                              mk: LayerConstructor, entries: seq<Value>, i: nat)
    requires Meta(path, doc).Ok? && GetOr(Meta(path, doc).value, "layers", List([])) == List(entries)
    requires MakeHeader(path, stage, Meta(path, doc).value).Ok?
    requires i < |entries| && LayerName(entries[i]) == Null
    requires forall j :: 0 <= j <= i ==> entries[j].Dict?
    ensures Construct(path, doc, stage, vaultOverride, mk).Err?
    ensures Construct(path, doc, stage, vaultOverride, mk).error.FileFormatError?
  {
    var meta := Meta(path, doc).value;
    var h := MakeHeader(path, stage, meta).value;
    assert Entries(GetOr(meta, "layers", List([]))) == Ok(entries);
    assert !WellFormed(path, entries) by { assert EntryError(path, entries[i]).Some?; }
    LayerListOutcome(h, path, entries, mk);
  }

  /** An empty environment section is a FileFormatError; a missing one fails
      earlier, in `len(None)`, with a TypeError. */
  lemma MetaErrors(path: string, doc: Value)
    requires doc.Dict?
    ensures EnvName(path) !in doc.fields ==> Meta(path, doc) == Err(TypeError("len"))
    ensures EnvName(path) in doc.fields && Len(doc.fields[EnvName(path)]) == Some(0) ==>
      Meta(path, doc) == Err(FileFormatError(path, None))
  {
  }
}
