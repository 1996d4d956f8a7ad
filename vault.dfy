/** Environment secrets: a plaintext is encrypted under the vault layer's KMS
    key and stored in the environment's secrets table under its key; reading
    it back fetches the item and decrypts it. */
module Vault {
  import opened Wrappers
  import opened Values
  import opened Layers
  import opened Adapters
  import opened Environments

  /** The `kms_key_id` property: the `KmsKeyId` output of the vault layer. */
  function KmsKeyId(env: Environment): (r: Result<Value, Error>)
    ensures env.vaultLayer.None? ==> r == Err(RequiresVaultError)
    ensures env.vaultLayer.Some? && env.vaultLayer.value.name !in Outputs(env.layers) ==>
      r == Err(KeyError(env.vaultLayer.value.name))
    ensures env.vaultLayer.Some? && env.vaultLayer.value.name in Outputs(env.layers) ==>
      var o := Outputs(env.layers)[env.vaultLayer.value.name];
      r == if "KmsKeyId" in o then Ok(o["KmsKeyId"]) else Err(KeyError("KmsKeyId"))
    ensures r.Ok? ==>
      && env.vaultLayer.Some?
      && env.vaultLayer.value.name in Outputs(env.layers)
      && "KmsKeyId" in Outputs(env.layers)[env.vaultLayer.value.name]
      && r.value == Outputs(env.layers)[env.vaultLayer.value.name]["KmsKeyId"]
  {
    match env.vaultLayer
    case None => Err(RequiresVaultError)
    case Some(vault) =>
      var outputs := Outputs(env.layers);
      if vault.name !in outputs then Err(KeyError(vault.name))
      else if "KmsKeyId" !in outputs[vault.name] then Err(KeyError("KmsKeyId"))
      else Ok(outputs[vault.name]["KmsKeyId"])
  }

  /** The calls `set_secret(key, plaintext)` makes, and its error. */
  function SetSecretRun(env: Environment, encrypt: (Value, string) -> Blob, key: string, plaintext: string): Trace {
    match KmsKeyId(env)
    case Err(e) => Trace([], Some(e))
    case Ok(keyId) =>
      Trace([EncryptCall(keyId, plaintext), PutItemCall(env.secretsTable, key, encrypt(keyId, plaintext))], None)
  }

  /** The secrets store after `set_secret(key, plaintext)`. */
  function StoreSecret(env: Environment, items: map<(string, string), Blob>, encrypt: (Value, string) -> Blob,
                       key: string, plaintext: string): map<(string, string), Blob> {
    match KmsKeyId(env)
    case Err(_) => items
    case Ok(keyId) => items[(env.secretsTable, key) := encrypt(keyId, plaintext)]
  }

  /** What `get_secret(key)` returns. */
  function ReadSecret(env: Environment, items: map<(string, string), Blob>, decrypt: Blob -> string,
                      key: string): Result<string, Error> {
    if env.vaultLayer.None? then Err(RequiresVaultError)
    else if (env.secretsTable, key) !in items then Err(KeyError("Item"))
    else Ok(decrypt(items[(env.secretsTable, key)]))
  }

  /** The calls `get_secret(key)` makes. */
  function GetSecretCalls(env: Environment, items: map<(string, string), Blob>, key: string): seq<Call> {
    if env.vaultLayer.None? then []
    else if (env.secretsTable, key) !in items then [GetItemCall(env.secretsTable, key)]
    else [GetItemCall(env.secretsTable, key), DecryptCall(items[(env.secretsTable, key)])]
  }

  method SetSecret(env: Environment, svc: Services, key: string, plaintext: string) returns (error: Option<Error>)
    modifies svc
    ensures svc.log == old(svc.log) + SetSecretRun(env, svc.encrypt, key, plaintext).calls
    ensures error == SetSecretRun(env, svc.encrypt, key, plaintext).error
    ensures svc.items == StoreSecret(env, old(svc.items), svc.encrypt, key, plaintext)
  {
    if env.vaultLayer.None? {
      return Some(RequiresVaultError);
    }
    var keyId := KmsKeyId(env);
    if keyId.Err? {
      return Some(keyId.error);
    }
    var encrypted := svc.Encrypt(keyId.value, plaintext);
    svc.PutItem(env.secretsTable, key, encrypted);
    return None;
  }

  method GetSecret(env: Environment, svc: Services, key: string) returns (r: Result<string, Error>)
    modifies svc
    ensures svc.log == old(svc.log) + GetSecretCalls(env, old(svc.items), key)
    ensures r == ReadSecret(env, old(svc.items), svc.decrypt, key)
    ensures svc.items == old(svc.items)
  {
    if env.vaultLayer.None? {
      return Err(RequiresVaultError);
    }
    var item := svc.GetItem(env.secretsTable, key);
    if item.None? {
      return Err(KeyError("Item"));
    }
    var plaintext := svc.Decrypt(item.value);
    return Ok(plaintext);
  }

  /** Decryption undoes encryption under any key. */
  ghost predicate Inverse(encrypt: (Value, string) -> Blob, decrypt: Blob -> string) {
    forall keyId, plaintext :: decrypt(encrypt(keyId, plaintext)) == plaintext
  }

  /** A secret that was set can be read back, as long as decryption undoes
      encryption. */
  lemma SecretRoundTrip(env: Environment, items: map<(string, string), Blob>, encrypt: (Value, string) -> Blob,
                        decrypt: Blob -> string, key: string, plaintext: string)
    requires Inverse(encrypt, decrypt)
    requires KmsKeyId(env).Ok?
    ensures ReadSecret(env, StoreSecret(env, items, encrypt, key, plaintext), decrypt, key) == Ok(plaintext)
  {
  }

  /** Setting one secret leaves every other secret, and every other table, as
      it was; a failed `set_secret` changes nothing at all. */
  lemma SecretsIndependent(env: Environment, items: map<(string, string), Blob>, encrypt: (Value, string) -> Blob,
                           key: string, plaintext: string, other: (string, string))
    requires other != (env.secretsTable, key)
    ensures var after := StoreSecret(env, items, encrypt, key, plaintext);
      (other in after <==> other in items) && (other in items ==> after[other] == items[other])
    ensures KmsKeyId(env).Err? ==> StoreSecret(env, items, encrypt, key, plaintext) == items
  {
  }

  /** Both secret operations refuse, without any call, an environment with no
      vault layer; setting a secret also needs the vault's key, and issues no
      call when it cannot find it. */
  lemma SecretErrors(env: Environment, items: map<(string, string), Blob>, encrypt: (Value, string) -> Blob,
                     decrypt: Blob -> string, key: string, plaintext: string)
    ensures env.vaultLayer.None? ==>
      && SetSecretRun(env, encrypt, key, plaintext) == Trace([], Some(RequiresVaultError))
      && ReadSecret(env, items, decrypt, key) == Err(RequiresVaultError)
      && GetSecretCalls(env, items, key) == []
    ensures SetSecretRun(env, encrypt, key, plaintext).error.Some? <==> KmsKeyId(env).Err?
    ensures KmsKeyId(env).Err? ==> SetSecretRun(env, encrypt, key, plaintext).calls == []
    ensures env.vaultLayer.Some? ==>
      (ReadSecret(env, items, decrypt, key) == Err(KeyError("Item")) <==> (env.secretsTable, key) !in items)
  {
  }

  /** When layer names are distinct, the KMS key is the vault layer's own
      `KmsKeyId` output, and each way of not having one is its own error. */
  lemma KmsKeyIdOfVaultLayer(env: Environment, i: nat)
    requires i < |env.layers| && env.vaultLayer == Some(env.layers[i])
    requires DistinctNames(env.layers)
    ensures var vault := env.layers[i];
      KmsKeyId(env) ==
        if vault.outputs.None? then Err(KeyError(vault.name))
        else if "KmsKeyId" !in vault.outputs.value then Err(KeyError("KmsKeyId"))
        else Ok(vault.outputs.value["KmsKeyId"])
  {
    var vault := env.layers[i];
    OutputsKeys(env.layers, vault.name);
    if vault.outputs.Some? {
      OutputsOfDistinctLayers(env.layers);
    }
  }

  /** A secret set through the services can be read back through them. */
  method SetThenGet(env: Environment, svc: Services, key: string, plaintext: string) returns (r: Result<string, Error>)
    requires Inverse(svc.encrypt, svc.decrypt)
    requires KmsKeyId(env).Ok?
    modifies svc
    ensures r == Ok(plaintext)
  {
    var error := SetSecret(env, svc, key, plaintext);
    SecretRoundTrip(env, old(svc.items), svc.encrypt, svc.decrypt, key, plaintext);
    r := GetSecret(env, svc, key);
  }
}
