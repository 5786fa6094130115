/**
  An agent's environment across redeploys (services/agent_service.py): what is stored, encrypted, in its row,
  and what its containers see.
 */
module Environment {
  import opened Basics

  datatype EnvVar = EnvVar(key: string, value: string, secret: bool)

  /** An entry of the env column; a secret's value is ciphertext. */
  datatype StoredVar = StoredVar(key: string, value: string, secret: bool)

  /** The secret store: encryption draws a fresh nonce each time. */
  datatype Cipher = Cipher(encrypt: (nat, string) -> string, decrypt: string -> string)

  ghost predicate Inverts(c: Cipher) {
    forall nonce: nat, plain: string :: c.decrypt(c.encrypt(nonce, plain)) == plain
  }

  /** The variables that carry a model provider's key. */
  predicate ProviderKey(key: string) {
    key in {"OPENAI_API_KEY", "ANTHROPIC_API_KEY", "GOOGLE_API_KEY"}
  }

  function Store(c: Cipher, nonce: nat, e: EnvVar): StoredVar {
    StoredVar(e.key, if e.secret then c.encrypt(nonce, e.value) else e.value, e.secret)
  }

  /** `_env_to_storage` */
  function ToStorage(c: Cipher, nonce: nat, env: seq<EnvVar>): seq<StoredVar>
    decreases |env|
  {
    if env == [] then [] else [Store(c, nonce, env[0])] + ToStorage(c, nonce + 1, env[1..])
  }

  predicate Defines(env: seq<StoredVar>, key: string) {
    exists i :: 0 <= i < |env| && env[i].key == key
  }

  /** The provider keys of the old environment that the new one does not redefine. */
  function Kept(old_: seq<StoredVar>, new_: seq<StoredVar>): seq<StoredVar> {
    if old_ == [] then []
    else
      (if ProviderKey(old_[0].key) && !Defines(new_, old_[0].key) then [old_[0]] else []) + Kept(old_[1..], new_)
  }

  /** The env part of `_apply_deploy_config`. */
  function Redeployed(c: Cipher, nonce: nat, old_: seq<StoredVar>, env: seq<EnvVar>): seq<StoredVar> {
    var new_ := ToStorage(c, nonce, env);
    new_ + Kept(old_, new_)
  }

  function Without(env: seq<StoredVar>, key: string): seq<StoredVar> {
    if env == [] then [] else (if env[0].key != key then [env[0]] else []) + Without(env[1..], key)
  }

  /** `_with_provider_key` */
  function WithProviderKey(c: Cipher, nonce: nat, env: seq<StoredVar>, name: string, apiKey: string): seq<StoredVar> {
    Without(env, name) + [StoredVar(name, c.encrypt(nonce, apiKey), true)]
  }

  function Plain(c: Cipher, e: StoredVar): string {
    if e.secret then c.decrypt(e.value) else e.value
  }

  /** The value a variable has in a container: its last definition wins. */
  function Lookup(c: Cipher, env: seq<StoredVar>, key: string): Option<string> {
    if env == [] then None
    else
      var e := env[|env| - 1];
      if e.key == key then Some(Plain(c, e)) else Lookup(c, env[..|env| - 1], key)
  }

  /** `_env_for_container` */
  method EnvForContainer(c: Cipher, stored: seq<StoredVar>) returns (plain: map<string, string>)
    ensures forall key :: key in plain <==> Lookup(c, stored, key).Some?
    ensures forall key :: key in plain ==> Lookup(c, stored, key) == Some(plain[key])
  {
    plain := map[];
    for i := 0 to |stored|
      invariant forall key :: key in plain <==> Lookup(c, stored[..i], key).Some?
      invariant forall key :: key in plain ==> Lookup(c, stored[..i], key) == Some(plain[key])
    {
      assert stored[..i + 1][..i] == stored[..i];
      plain := plain[stored[i].key := Plain(c, stored[i])];
    }
    assert stored[..|stored|] == stored;
  }

  /** An agent's env column. */
  class AgentEnv {
    const cipher: Cipher
    var env: seq<StoredVar>

    /** As `create_agent` fills it: the deploy config's variables, then the owner's own provider key. */
    constructor (cipher: Cipher, nonce: nat, creation: Creation)
      ensures this.cipher == cipher && env == Created(cipher, nonce, creation)
    {
      this.cipher := cipher;
      var stored := if creation.deploy.Some? then Redeployed(cipher, nonce, [], creation.deploy.value) else [];
      if Truthy(creation.apiKey) {
        stored := WithProviderKey(cipher, nonce, stored, creation.provider, creation.apiKey.value);
      }
      env := stored;
    }

    method ApplyDeployConfig(nonce: nat, deploy: seq<EnvVar>)
      modifies this
      ensures env == Redeployed(cipher, nonce, old(env), deploy)
    {
      var stored := ToStorage(cipher, nonce, deploy);
      env := stored + Kept(env, stored);
    }
  }

  // ---------- The environment over an agent's life ----------

  /** What creation sends: perhaps a deploy config, perhaps an api key; `provider` names the model's key variable. */
  datatype Creation = Creation(deploy: Option<seq<EnvVar>>, provider: string, apiKey: Option<string>)

  /** A deploy request: a new config, or None to run the stored one again. */
  datatype Redeploy = Redeploy(nonce: nat, config: Option<seq<EnvVar>>)

  function Created(c: Cipher, nonce: nat, creation: Creation): seq<StoredVar> {
    var stored := if creation.deploy.Some? then Redeployed(c, nonce, [], creation.deploy.value) else [];
    if Truthy(creation.apiKey) then WithProviderKey(c, nonce, stored, creation.provider, creation.apiKey.value) else stored
  }

  function StoredAfter(c: Cipher, nonce: nat, creation: Creation, deploys: seq<Redeploy>): seq<StoredVar> {
    if deploys == [] then Created(c, nonce, creation)
    else
      var d := deploys[|deploys| - 1];
      var before := StoredAfter(c, nonce, creation, deploys[..|deploys| - 1]);
      if d.config.None? then before else Redeployed(c, d.nonce, before, d.config.value)
  }

  /** A variable's last definition in a config. */
  function LastDefinition(env: seq<EnvVar>, key: string): Option<string> {
    if env == [] then None
    else if env[|env| - 1].key == key then Some(env[|env| - 1].value)
    else LastDefinition(env[..|env| - 1], key)
  }

  function CreationValue(creation: Creation, key: string): Option<string> {
    if Truthy(creation.apiKey) && creation.provider == key then creation.apiKey
    else if creation.deploy.Some? then LastDefinition(creation.deploy.value, key)
    else None
  }

  /**
    What a container should see, told from the requests alone: a provider key keeps the value of the latest
    config that defined it, or of creation; any other variable is the latest config's.
   */
  function Expected(creation: Creation, deploys: seq<Redeploy>, key: string): Option<string> {
    if deploys == [] then CreationValue(creation, key)
    else
      var d := deploys[|deploys| - 1];
      var before := Expected(creation, deploys[..|deploys| - 1], key);
      if d.config.None? then before
      else if LastDefinition(d.config.value, key).Some? then LastDefinition(d.config.value, key)
      else if ProviderKey(key) then before
      else None
  }

  lemma {:induction false} LookupConcat(c: Cipher, a: seq<StoredVar>, b: seq<StoredVar>, key: string)
    ensures Lookup(c, a + b, key) == if Lookup(c, b, key).Some? then Lookup(c, b, key) else Lookup(c, a, key)
    decreases |b|
  {
    if b == [] {
      assert a + b == a;
    } else {
      assert (a + b)[..|a + b| - 1] == a + b[..|b| - 1];
      LookupConcat(c, a, b[..|b| - 1], key);
    }
  }

  lemma LookupOne(c: Cipher, e: StoredVar, key: string)
    ensures Lookup(c, [e], key) == if e.key == key then Some(Plain(c, e)) else None
  {
    assert [e][..0] == [];
  }

  lemma LookupCons(c: Cipher, e: StoredVar, rest: seq<StoredVar>, key: string)
    ensures Lookup(c, [e] + rest, key) ==
            if Lookup(c, rest, key).Some? then Lookup(c, rest, key) else if e.key == key then Some(Plain(c, e)) else None
  {
    LookupConcat(c, [e], rest, key);
    LookupOne(c, e, key);
  }

  lemma {:induction false} LastDefinitionCons(e: EnvVar, rest: seq<EnvVar>, key: string)
    ensures LastDefinition([e] + rest, key) ==
            if LastDefinition(rest, key).Some? then LastDefinition(rest, key) else if e.key == key then Some(e.value) else None
    decreases |rest|
  {
    var all := [e] + rest;
    if rest == [] {
      assert all[..0] == [];
    } else {
      assert all[..|all| - 1] == [e] + rest[..|rest| - 1];
      LastDefinitionCons(e, rest[..|rest| - 1], key);
    }
  }

  /** Storage loses nothing: reading it back gives each variable its last definition. */
  lemma {:induction false} StorageRoundTrip(c: Cipher, nonce: nat, env: seq<EnvVar>, key: string)
    requires Inverts(c)
    ensures Lookup(c, ToStorage(c, nonce, env), key) == LastDefinition(env, key)
    ensures Defines(ToStorage(c, nonce, env), key) <==> LastDefinition(env, key).Some?
    decreases |env|
  {
    if env != [] {
      var head, rest := Store(c, nonce, env[0]), ToStorage(c, nonce + 1, env[1..]);
      StorageRoundTrip(c, nonce + 1, env[1..], key);
      LookupCons(c, head, rest, key);
      assert env == [env[0]] + env[1..];
      LastDefinitionCons(env[0], env[1..], key);
      DefinesCons(head, rest, key);
    }
  }

  lemma DefinesCons(e: StoredVar, rest: seq<StoredVar>, key: string)
    ensures Defines([e] + rest, key) <==> e.key == key || Defines(rest, key)
  {
    var all := [e] + rest;
    if e.key == key {
      assert all[0].key == key;
    }
    if Defines(rest, key) {
      var i :| 0 <= i < |rest| && rest[i].key == key;
      assert all[i + 1].key == key;
    }
  }

  lemma {:induction false} KeptLookup(c: Cipher, old_: seq<StoredVar>, new_: seq<StoredVar>, key: string)
    ensures Lookup(c, Kept(old_, new_), key) ==
            if ProviderKey(key) && !Defines(new_, key) then Lookup(c, old_, key) else None
    decreases |old_|
  {
    if old_ != [] {
      KeptLookup(c, old_[1..], new_, key);
      assert old_ == [old_[0]] + old_[1..];
      LookupCons(c, old_[0], old_[1..], key);
      LookupCons(c, old_[0], Kept(old_[1..], new_), key);
      assert [] + Kept(old_[1..], new_) == Kept(old_[1..], new_);
    }
  }

  lemma {:induction false} WithoutLookup(c: Cipher, env: seq<StoredVar>, name: string, key: string)
    requires key != name
    ensures Lookup(c, Without(env, name), key) == Lookup(c, env, key)
    decreases |env|
  {
    if env != [] {
      WithoutLookup(c, env[1..], name, key);
      assert env == [env[0]] + env[1..];
      LookupCons(c, env[0], env[1..], key);
      LookupCons(c, env[0], Without(env[1..], name), key);
      assert [] + Without(env[1..], name) == Without(env[1..], name);
    }
  }

  /** A redeploy gives every variable it defines its last definition there, and keeps undefined provider keys. */
  lemma RedeployedLookup(c: Cipher, nonce: nat, old_: seq<StoredVar>, env: seq<EnvVar>, key: string)
    requires Inverts(c)
    ensures Lookup(c, Redeployed(c, nonce, old_, env), key) ==
            if LastDefinition(env, key).Some? then LastDefinition(env, key)
            else if key == "OPENAI_API_KEY" || key == "ANTHROPIC_API_KEY" || key == "GOOGLE_API_KEY" then Lookup(c, old_, key)
            else None
  {
    var new_ := ToStorage(c, nonce, env);
    StorageRoundTrip(c, nonce, env, key);
    KeptLookup(c, old_, new_, key);
    LookupConcat(c, new_, Kept(old_, new_), key);
  }

  /** Storage keeps every variable in its place; exactly the secret ones are stored as ciphertext, each with its own nonce. */
  lemma {:induction false} SecretsAreSealed(c: Cipher, nonce: nat, env: seq<EnvVar>)
    ensures |ToStorage(c, nonce, env)| == |env|
    ensures forall i :: 0 <= i < |env| ==>
              var e, stored := env[i], ToStorage(c, nonce, env)[i];
              && stored.key == e.key && stored.secret == e.secret
              && stored.value == if e.secret then c.encrypt(nonce + i, e.value) else e.value
    decreases |env|
  {
    if env != [] {
      SecretsAreSealed(c, nonce + 1, env[1..]);
      assert forall i :: 0 < i < |env| ==> ToStorage(c, nonce, env)[i] == ToStorage(c, nonce + 1, env[1..])[i - 1];
    }
  }

  /** An api key given at creation is stored once, sealed, in place of any definition in the deploy config. */
  lemma ApiKeyIsStoredOnce(c: Cipher, nonce: nat, creation: Creation)
    requires Truthy(creation.apiKey)
    ensures var stored := Created(c, nonce, creation);
            && stored != []
            && stored[|stored| - 1] == StoredVar(creation.provider, c.encrypt(nonce, creation.apiKey.value), true)
            && forall i :: 0 <= i < |stored| - 1 ==> stored[i].key != creation.provider
  {
    var stored := if creation.deploy.Some? then Redeployed(c, nonce, [], creation.deploy.value) else [];
    WithoutDefinesNone(stored, creation.provider);
  }

  lemma {:induction false} WithoutDefinesNone(env: seq<StoredVar>, name: string)
    ensures forall i :: 0 <= i < |Without(env, name)| ==> Without(env, name)[i].key != name
  {
    if env != [] {
      WithoutDefinesNone(env[1..], name);
    }
  }

  lemma CreatedLookup(c: Cipher, nonce: nat, creation: Creation, key: string)
    requires Inverts(c)
    ensures Lookup(c, Created(c, nonce, creation), key) == CreationValue(creation, key)
  {
    var stored: seq<StoredVar> := [];
    if creation.deploy.Some? {
      stored := Redeployed(c, nonce, [], creation.deploy.value);
      RedeployedLookup(c, nonce, [], creation.deploy.value, key);
    }
    if Truthy(creation.apiKey) {
      var own := StoredVar(creation.provider, c.encrypt(nonce, creation.apiKey.value), true);
      LookupConcat(c, Without(stored, creation.provider), [own], key);
      LookupOne(c, own, key);
      if key != creation.provider {
        WithoutLookup(c, stored, creation.provider, key);
      }
    }
  }

  /** After creation and any deploys, a container sees exactly what the requests say it should. */
  lemma {:induction false} EnvironmentAcrossRedeploys(
      c: Cipher, nonce: nat, creation: Creation, deploys: seq<Redeploy>, key: string)
    requires Inverts(c)
    ensures Lookup(c, StoredAfter(c, nonce, creation, deploys), key) == Expected(creation, deploys, key)
    decreases |deploys|
  {
    if deploys == [] {
      CreatedLookup(c, nonce, creation, key);
    } else {
      var n := |deploys| - 1;
      EnvironmentAcrossRedeploys(c, nonce, creation, deploys[..n], key);
      if deploys[n].config.Some? {
        RedeployedLookup(c, deploys[n].nonce, StoredAfter(c, nonce, creation, deploys[..n]), deploys[n].config.value, key);
      }
    }
  }
}
