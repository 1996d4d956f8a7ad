# humilis Environment, modelled in Dafny

humilis deploys an *environment*, which is an ordered collection of CloudFormation
*layers* described by one YAML specification file. This project models the
environment orchestrator of `humilis/environment.py`:

- **Construction.** The environment is named after its file and has the upper-cased
  stage. Its tags carry the provenance tag `humilis:environment`. Its layer list
  holds the enabled spec entries, in order. The vault layer is looked up by name,
  and the secrets table name is derived from name and stage. Every exception the
  constructor itself raises on a malformed document is modelled as well. Exceptions
  raised inside the Layer constructor of humilis/layer.py are not (see "## Left out").
- **Layer lookup** (`get_layer`): the first layer whose resource name or logical
  name matches.
- **The aggregated outputs map.**
- **The dependency hierarchy** (`populate_hierarchy`).
- **`create`**: links the hierarchy, creates every layer in list order, then writes
  the outputs when asked to.
- **`delete`**: deletes every layer in reverse list order.
- **The secrets protocol**: KMS encryption, then a DynamoDB item.
- **`in_cf`**: whether the environment is deployed.

How it is modelled:

- **Environment.** It is built once and never changed afterwards, so it is a
  datatype. `Environments.Init` is the constructor's loop, proved equal to the
  function `Environments.Construct`.
- **Layers.** They are values (`Layers.Layer`). In the call log, a layer is known
  by its position in the environment's list.
- **Effects.** The calls with effects go through the class `Adapters.Services`:
  layer creation, deletion and `add_child`, the KMS and DynamoDB clients, and
  writing the outputs file. Each of its methods appends one `Call` to `log`, and
  DynamoDB is the map `items`. The rest of what the orchestrator reads from
  outside this file arrives as parameters or given fields:
  - the Layer constructor is the function parameter `mk` of `Construct` and `Init`;
  - a layer's `cf_name` and `outputs` are fields of `Layers.Layer`;
  - the deployed stacks (`self.cf.stacks`) are the `stacks` argument of `Stacks.InCf`.
- **Proofs.** The orchestrating methods (`Create`, `Delete`, `PopulateHierarchy`,
  `SetSecret`, `GetSecret`, `WriteOutputs`) are proved to produce exactly the log,
  store and error of specification functions (`CreateRun`, `DeleteCalls`,
  `HierarchyRun`, `SetSecretRun`, `StoreSecret`, `ReadSecret`, `WriteRun`). Lemmas
  prove the properties of those functions.
- **Python values.** The parsed YAML document is a `Values.Value`. Python's
  truthiness, `dict.get`, `len` and the exceptions raised by the source are written
  out explicitly.

Files:
- `wrappers.dfy`: Option and Result.
- `values.dfy`: YAML values and Python exceptions.
- `names.dfy`: path splitting, upper-casing, table and file names.
- `layers.dfy`: layer lookup and outputs.
- `adapters.dfy`: the services and the call log.
- `environments.dfy`: construction.
- `hierarchy.dfy`: `populate_hierarchy`.
- `lifecycle.dfy`: `create`, `write_outputs` and `delete`.
- `vault.dfy`: `kms_key_id` and the secrets.
- `stacks.dfy`: `in_cf`.

Where the code and humilis' documented behaviour differ, the model follows the code:
- **Missing environment section.** A document without the environment's section
  fails in `len(None)` with a TypeError (`environment.py:32-35`), not with a
  format error. Only an empty section is a FileFormatError.
- **Unresolved parent.** A parent name that no layer has is not reported as a
  configuration error. `get_layer` returns None, and `None.add_child` raises
  AttributeError (`environment.py:132`). The links already made stay in place.
- **Rebinding in `populate_hierarchy`.** The loop rebinds `layer` to what
  `add_child` returns (`environment.py:132`). Only a layer's first parent is
  certain to receive the layer itself. Every later parent receives the previous
  call's return value (`Hierarchy.ChainShape`, `Hierarchy.SecondParentGetsNone`,
  `Hierarchy.IdentityLinkReachesEveryParent`).
- **Empty outputs.** A layer whose outputs are an empty mapping still contributes
  a key to the outputs map. Only a layer with no outputs at all (None) is skipped
  (`environment.py:68-70`).
- **Default outputs file name.** Without a non-empty stage, the default name
  `<name>-<STAGE>.outputs.yaml` cannot be formed, because `suffix` is never bound.
  `write_outputs` then raises UnboundLocalError (`environment.py:119-122`). `create`
  only writes when a file is given, so from `create` this never arises.
- **Disabled entries.** The entry is checked for a name before the `disable` flag
  is looked at. A disabled entry without a name is therefore still rejected
  (`environment.py:44-48`).
- **Secrets table without a stage.** The table name renders an absent stage as
  `None`: `secrets_<name>_None` (`environment.py:60-61`).

## Model

| member | source | states |
|---|---|---|
| Names.LastIndex | humilis/environment.py:28 | the position of the last occurrence of a character, or -1 when there is none |
| Names.EnvName | humilis/environment.py:28 | the environment name (file name without its extension) never contains '/' |
| Names.FileNameAfterDir | humilis/environment.py:28 | the file part of `<dir><file>` is `<file>` when `<dir>` is empty or ends in '/' |
| Names.StripExtensionOfStem | humilis/environment.py:28 | splitext of `<stem>.<ext>` gives back `<stem>` unless the stem is only dots |
| Names.EnvNameOfSpecFile | humilis/environment.py:28 | a specification file `<dir><stem>.<ext>` names the environment `<stem>` |
| Names.DirNameOfSpecFile | humilis/environment.py:30 | the base directory of `<dir>/<file>` is `<dir>` |
| Names.Upper | humilis/environment.py:29 | upper-casing keeps the length, maps each ASCII lower-case letter to its capital and keeps every other character |
| Names.OutputsPathCases | humilis/environment.py:117-122 | an explicit output file is used as given; the default name exists exactly when the stage is non-empty, and then it is `<name>-<STAGE>.outputs.yaml`; otherwise it fails with UnboundLocalError |
| Environments.Init | humilis/environment.py:22-61 | the constructor produces exactly the environment, or raises exactly the exception, that `Construct` describes |
| Environments.LayerListOutcome | humilis/environment.py:43-47 | the layer list is built exactly when every entry, disabled or not, is a mapping with a name; otherwise the first offending entry decides the exception |
| Environments.LayerListIsEnabled | humilis/environment.py:42-57 | for well-formed entries the layers are one per enabled entry, in order, each built from the entry's name and the entry without its `layer` key |
| Environments.EnabledCount | humilis/environment.py:48-52 | N entries of which D are disabled leave N - D enabled entries |
| Environments.EnabledMembers | humilis/environment.py:48-52 | an entry is kept exactly when it is one of the entries and is not disabled |
| Environments.ConstructedHeader | humilis/environment.py:28-61 | a constructed environment has the file's name, the upper-cased stage and the file's directory; its provenance tag is its name, overriding any supplied value, and every other supplied tag is kept; its table is `secrets_<name>_<stage>`; its vault is the lookup of the override or `secrets-vault` |
| Environments.ConstructedLayers | humilis/environment.py:42-57 | the layers of a constructed environment are the enabled entries in order, N - D of them |
| Environments.NamelessEntryRejected | humilis/environment.py:44-47 | an entry without a name makes construction fail with FileFormatError, even when it is disabled, once the entries up to it are mappings |
| Environments.MetaErrors | humilis/environment.py:32-35 | a missing environment section fails with TypeError from `len(None)`; an empty one fails with FileFormatError |
| Layers.Lookup | humilis/environment.py:134-140 | the index found is that of the first layer whose resource or logical name matches; None exactly when no layer matches |
| Layers.GetLayer | humilis/environment.py:134-140 | the first matching layer; None exactly when no layer matches |
| Layers.CollectOutputs | humilis/environment.py:63-71 | the loop builds exactly the outputs map `Outputs` describes |
| Layers.OutputsKeys | humilis/environment.py:63-71 | a name is a key of the outputs map exactly when some layer of that name has outputs |
| Layers.OutputsValue | humilis/environment.py:63-71 | the value under a name is the outputs of the last layer of that name that has outputs |
| Layers.OutputsOfDistinctLayers | humilis/environment.py:63-71 | with distinct layer names, the keys are the names of the layers with outputs and each value is that layer's outputs |
| Adapters.Services.AddChild | humilis/environment.py:132 | a call to `add_child` is logged, and its result is the abstract return value of `add_child` |
| Adapters.Services.CreateLayer | humilis/environment.py:112 | a layer creation is logged with its update flag |
| Adapters.Services.DeleteLayer | humilis/environment.py:145 | a layer deletion is logged |
| Adapters.Services.WriteOutputs | humilis/environment.py:123-125 | writing the outputs to a file is logged with the path and the map |
| Adapters.Services.Encrypt | humilis/environment.py:85-86 | a KMS encryption is logged, and its result is the abstract ciphertext of key and plaintext |
| Adapters.Services.PutItem | humilis/environment.py:88-90 | storing an item is logged, and the store maps (table, key) to the ciphertext |
| Adapters.Services.GetItem | humilis/environment.py:98-100 | a fetch is logged, and returns the stored ciphertext or nothing |
| Adapters.Services.Decrypt | humilis/environment.py:104 | a KMS decryption is logged, and its result is the abstract plaintext of the ciphertext |
| Hierarchy.LinkToParents | humilis/environment.py:130-132 | one layer's inner loop makes exactly the calls and raises exactly the error of `Chain`, where each call receives the previous call's return value |
| Hierarchy.PopulateHierarchy | humilis/environment.py:127-132 | `populate_hierarchy` makes exactly the calls and raises exactly the error of `HierarchyRun`, and changes no store |
| Hierarchy.ChainShape | humilis/environment.py:131-132 | when all parent names resolve, a layer makes one `add_child` call per parent name, in order, to the layer that name resolves to; the first call passes the layer itself and each later call passes the previous call's result |
| Hierarchy.ChainStops | humilis/environment.py:131-132 | the first unresolvable parent name raises AttributeError after exactly the calls for the names before it |
| Hierarchy.ChainOutcome | humilis/environment.py:131-132 | one layer's links fail exactly when some parent name does not resolve, and then with AttributeError |
| Hierarchy.HierarchyOutcome | humilis/environment.py:127-132 | `populate_hierarchy` completes exactly when every declared parent name of every layer resolves, and otherwise raises AttributeError |
| Hierarchy.NoDependenciesNoCalls | humilis/environment.py:130 | layers without dependencies cause no calls |
| Hierarchy.HierarchySplit | humilis/environment.py:129-132 | the links of all layers are those of the layers before position i followed by those from i on |
| Hierarchy.LayerLinks | humilis/environment.py:129-132 | the links of layer i appear contiguously, in the order of its parent names, after the links of the layers before it |
| Hierarchy.IdentityLinkReachesEveryParent | humilis/environment.py:131-132 | when `add_child` returns its argument, each parent in declaration order receives the layer exactly once |
| Hierarchy.SecondParentGetsNone | humilis/environment.py:132 | when `add_child` returns nothing, the second parent receives None instead of the layer |
| Lifecycle.WriteOutputs | humilis/environment.py:117-125 | `write_outputs` writes the outputs map to the given or default file, or fails with no call when the default name cannot be formed |
| Lifecycle.Create | humilis/environment.py:108-115 | `create` makes exactly the calls and raises exactly the error of `CreateRun`, and changes no store |
| Lifecycle.Delete | humilis/environment.py:142-145 | `delete` makes exactly the deletions `DeleteCalls` lists |
| Lifecycle.CreateCallsInOrder | humilis/environment.py:111-112 | layer i is the i-th created, with the given update flag |
| Lifecycle.DeleteCallsReversed | humilis/environment.py:144-145 | the j-th deletion is of layer n-1-j |
| Lifecycle.DeleteEachOnce | humilis/environment.py:144-145 | every layer, and nothing else, is deleted exactly once |
| Lifecycle.DeleteUndoesCreateOrder | humilis/environment.py:108-145 | the order of deletion is the reverse of the order of creation |
| Lifecycle.ChainOnlyLinks | humilis/environment.py:131-132 | one layer's links are all `add_child` calls |
| Lifecycle.HierarchyOnlyLinks | humilis/environment.py:127-132 | `populate_hierarchy` makes only `add_child` calls |
| Lifecycle.CreateOutcome | humilis/environment.py:108-115 | `create` fails exactly when some parent name does not resolve; it then stops after the links made so far, with AttributeError and no creation |
| Lifecycle.CreateSequence | humilis/environment.py:108-115 | when all parent names resolve, `create` first links the hierarchy, then creates each layer in list order, then, when a file is given, writes the outputs map to it as its last call |
| Lifecycle.WritesOnlyWhenAsked | humilis/environment.py:114-115 | `create` writes the outputs exactly when it is given a file and the hierarchy links |
| Vault.KmsKeyId | humilis/environment.py:73-79 | without a vault layer it fails with RequiresVaultError; when the vault's name has no outputs it fails with KeyError of that name; otherwise it is the `KmsKeyId` entry of those outputs, or KeyError `KmsKeyId` when there is none |
| Vault.KmsKeyIdOfVaultLayer | humilis/environment.py:73-79 | with distinct layer names, the key is the vault layer's own `KmsKeyId` output; a vault without outputs gives KeyError of its name, and one without `KmsKeyId` gives KeyError of `KmsKeyId` |
| Vault.SetSecret | humilis/environment.py:81-92 | `set_secret` encrypts under the vault key and stores the ciphertext under (table, key), with exactly the calls of `SetSecretRun`; on an error it makes no call and changes no item |
| Vault.GetSecret | humilis/environment.py:94-106 | `get_secret` fetches (table, key) and decrypts what it finds; its result is `ReadSecret` and it changes no item |
| Vault.SecretRoundTrip | humilis/environment.py:81-106 | a secret that was set reads back as the same plaintext whenever decryption undoes encryption |
| Vault.SecretsIndependent | humilis/environment.py:88-90 | setting a secret leaves every other key and table unchanged; a failed set changes nothing |
| Vault.SecretErrors | humilis/environment.py:81-106 | without a vault layer both operations fail with RequiresVaultError and make no call; setting fails exactly when the KMS key cannot be found, and then makes no call; reading a missing item fails with KeyError `Item` |
| Vault.SetThenGet | humilis/environment.py:81-106 | setting and then getting a secret through the services returns the plaintext |
| Stacks.InCf | humilis/environment.py:147-152 | the environment is deployed exactly when some stack's provenance tag equals its name |
| Stacks.InCfMonotone | humilis/environment.py:147-152 | another stack tagged with the name makes it deployed; an untagged stack changes nothing |

## Left out

- Reading and parsing the YAML file is not modelled: construction takes the parsed document as a `Value`. Writing YAML is a logged call with the path and the outputs map. Floats and non-string mapping keys are not modelled.
- Logging (the logger parameter, the warnings for disabled layers, the info line in `create`) is not modelled, because it has no effect on the result.
- The boto3, Cloudformation, Kms and Dynamodb clients are left out. Their effect is the logged calls of `Adapters.Services`, and encryption, decryption and `add_child` are abstract functions. Failures of these services and responses such as the one `put_item` returns are not modelled.
- `Adapters.Services.Encrypt`, `Adapters.Services.AddChild`: `encrypt` and `addChild` are fixed functions of their arguments. KMS's randomized ciphertext (two encryptions of one plaintext giving different blobs) and an `add_child` whose result depends on earlier calls cannot arise in the model.
- `Adapters.Services.Decrypt`: returns the decoded string directly. The bytes-to-text `.decode()` step and its failure on invalid UTF-8 are not modelled.
- `Vault.GetSecret`: an item is its ciphertext. The `['value']['B']` structure of a DynamoDB item is not modelled, so an item of another shape cannot arise.
- humilis/layer.py is not part of this model, so several things are missing:
  - how a layer is built from its entry is the parameter `mk`, which never fails, so a Layer constructor that raises (for example on an entry key that collides with one of its own parameters) cannot make construction fail;
  - how `cf_name` is derived, and how layer outputs are fetched, are given fields;
  - what creating or deleting a layer does in CloudFormation. `Adapters.Services.CreateLayer` and `Adapters.Services.DeleteLayer` never fail, so a layer whose creation or deletion raises cannot abort `create` or `delete` part-way;
  - what `add_child` records in the children of a layer and what it returns. `Adapters.Services.AddChild` never fails, so an `add_child` that raises (for example when the rebinding of `layer` at environment.py:132 hands it None or another object from the second parent on) cannot stop `populate_hierarchy` or `create`. `Hierarchy.ChainOutcome`, `Hierarchy.HierarchyOutcome`, `Lifecycle.CreateOutcome` and `Lifecycle.WritesOnlyWhenAsked` say these fail exactly when a parent name does not resolve, and that holds only under this assumption.

  For the same reason, the recording of each parent/child link exactly once, as humilis documents it, is not modelled.
- `Lifecycle.CreateRun`, `Lifecycle.CreateSequence`: a layer's `outputs` is set once when the layer is built and never changes. The written map is therefore `Outputs(env.layers)` as it was before any layer was created. In the source, `self.outputs` is read after the create loop (environment.py:111-115, :124), and layer.py then reports the new stacks' outputs. Creating or deleting a layer does not update this snapshot, and `Vault.KmsKeyId` reads the same snapshot.
- `utils.unroll_tags` is not part of this model: `in_cf` takes each stack's tags as an already unrolled map.
- `Names.Upper`: upper-cases ASCII letters only. The Unicode case mapping of `str.upper()` is not modelled.
- The `cf` client attribute, `__repr__` and `__str__` are left out, because they have no behaviour to state.
- The command-line tests are left out, because they only drive the CLI.
