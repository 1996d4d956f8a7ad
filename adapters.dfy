/** The collaborators the orchestrator drives and cannot see: the layer
    operations of humilis/layer.py, the key-management service, the key-value
    store and the outputs file. Each operation appends what it was asked to do
    to a call log; the store keeps ciphertext blobs under (table, id). */
module Adapters {
  import opened Wrappers
  import opened Values
  import opened Layers

  type Blob = seq<bv8>

  /** A Python object handed to or returned by `add_child`: a layer of the
      environment (by position), None, or anything else. */
  datatype Obj = LayerObj(index: nat) | NoneObj | OtherObj(id: nat)

  /** One call issued to a collaborator; layers are named by their position in
      the environment's layer list. */
  datatype Call =
    | AddChildCall(parent: nat, child: Obj)
    | CreateCall(layer: nat, update: bool)
    | DeleteCall(layer: nat)
    | WriteCall(path: string, outputs: OutputsMap)
    | EncryptCall(keyId: Value, plaintext: string)
    | PutItemCall(table: string, id: string, blob: Blob)
    | GetItemCall(table: string, id: string)
    | DecryptCall(blob: Blob)

  /** The calls a run issued and the exception, if any, that ended it. */
  datatype Trace = Trace(calls: seq<Call>, error: Option<Error>)

  /** A run that first issued `done` and then went on as `t`. */
  function After(done: seq<Call>, t: Trace): Trace {
    Trace(done + t.calls, t.error)
  }

  class Services {
    var log: seq<Call>
    var items: map<(string, string), Blob>
    /** The key-management service's encrypt and decrypt. */
    const encrypt: (Value, string) -> Blob
    const decrypt: Blob -> string
    /** What `parent.add_child(child)` returns. */
    const addChild: (nat, Obj) -> Obj

    constructor (encrypt: (Value, string) -> Blob, decrypt: Blob -> string,
                 addChild: (nat, Obj) -> Obj, items: map<(string, string), Blob>)
      ensures this.encrypt == encrypt && this.decrypt == decrypt && this.addChild == addChild
      ensures this.items == items && log == []
    {
      this.encrypt := encrypt;
      this.decrypt := decrypt;
      this.addChild := addChild;
      this.items := items;
      log := [];
    }

    /** `layers[parent].add_child(child)` */
    method AddChild(parent: nat, child: Obj) returns (r: Obj)
      modifies this
      ensures r == addChild(parent, child)
      ensures log == old(log) + [AddChildCall(parent, child)] && items == old(items)
    {
      log := log + [AddChildCall(parent, child)];
      r := addChild(parent, child);
    }

    /** `layers[index].create(update=update)` */
    method CreateLayer(index: nat, update: bool)
      modifies this
      ensures log == old(log) + [CreateCall(index, update)] && items == old(items)
    {
      log := log + [CreateCall(index, update)];
    }

    /** `layers[index].delete()` */
    method DeleteLayer(index: nat)
      modifies this
      ensures log == old(log) + [DeleteCall(index)] && items == old(items)
    {
      log := log + [DeleteCall(index)];
    }

    /** Dumping the outputs to a YAML file. */
    method WriteOutputs(path: string, outputs: OutputsMap)
      modifies this
      ensures log == old(log) + [WriteCall(path, outputs)] && items == old(items)
    {
      log := log + [WriteCall(path, outputs)];
    }

    /** KMS `encrypt(KeyId, Plaintext)['CiphertextBlob']` */
    method Encrypt(keyId: Value, plaintext: string) returns (blob: Blob)
      modifies this
      ensures blob == encrypt(keyId, plaintext)
      ensures log == old(log) + [EncryptCall(keyId, plaintext)] && items == old(items)
    {
      log := log + [EncryptCall(keyId, plaintext)];
      blob := encrypt(keyId, plaintext);
    }

    /** DynamoDB `put_item` of `{'id': id, 'value': blob}` into `table`. */
    method PutItem(table: string, id: string, blob: Blob)
      modifies this
      ensures log == old(log) + [PutItemCall(table, id, blob)]
      ensures items == old(items)[(table, id) := blob]
    {
      log := log + [PutItemCall(table, id, blob)];
      items := items[(table, id) := blob];
    }

    /** DynamoDB `get_item`; None when the response has no item. */
    method GetItem(table: string, id: string) returns (r: Option<Blob>)
      modifies this
      ensures r == if (table, id) in items then Some(items[(table, id)]) else None
      ensures log == old(log) + [GetItemCall(table, id)] && items == old(items)
    {
      log := log + [GetItemCall(table, id)];
      r := if (table, id) in items then Some(items[(table, id)]) else None;
    }

    /** KMS `decrypt(CiphertextBlob)['Plaintext']`, decoded. */
    method Decrypt(blob: Blob) returns (plaintext: string)
      modifies this
      ensures plaintext == decrypt(blob)
      ensures log == old(log) + [DecryptCall(blob)] && items == old(items)
    {
      log := log + [DecryptCall(blob)];
      plaintext := decrypt(blob);
    }
  }
}
