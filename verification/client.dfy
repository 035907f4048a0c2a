/**
 The lazily constructed backend client (`getSupabaseClient`). The module-level
 variable holding the instance is a `Slot`; every call is a transition that
 returns the new slot together with the call's result. Constructing the
 client is a foreign call that may throw: whether it returns is part of
 what a call meets, and a `Handle` records the configuration it was built
 from and a serial number telling constructions apart.
 */
module Client {
  import opened Common

  /** What one call meets: the two environment values read on an
      uninitialised call (the store URL and the public anonymous key; `None`
      is `undefined`), and whether the foreign constructor returns a client
      from them (`false`: it throws). */
  datatype Env = Env(url: Option<string>, anonKey: Option<string>, constructorReturns: bool)

  /** A configuration value passes the `!value` test when it is defined and non-empty. */
  predicate Provided(v: Option<string>) {
    v.Some? && v.value != ""
  }

  predicate Configured(env: Env) {
    Provided(env.url) && Provided(env.anonKey)
  }

  /** A constructed client: the configuration it was built from and the
      number of constructions that preceded it. */
  datatype Handle = Handle(serial: nat, url: string, anonKey: string)

  /** The module state: the stored instance (`null` initially) and a count
      of the constructions performed so far. */
  datatype Slot = Slot(instance: Option<Handle>, constructions: nat)

  const Uninitialised: Slot := Slot(None, 0)

  /** What a call can throw: the accessor's own error, or the exception of
      the constructor, which passes through to the caller. */
  datatype ClientError = MissingEnvironment | ConstructorThrew

  datatype Call = Call(slot: Slot, result: Result<Handle, ClientError>)

  /** One call of the accessor. An initialised slot answers with its instance
      and ignores the environment. An uninitialised one throws its own error
      unless both values are provided; then it calls the constructor, and
      either stores and returns the client it builds or lets the
      constructor's exception through. Every error leaves the slot as it
      was, so the next call starts over. */
  function GetClient(s: Slot, env: Env): (c: Call)
    ensures c.result.Ok? <==> s.instance.Some? || (Configured(env) && env.constructorReturns)
    ensures c.result.Ok? ==> c.slot.instance == Some(c.result.value)
    ensures c.result.Err? ==> c.slot == s
    ensures s.instance.Some? ==> c.slot == s && c.result == Ok(s.instance.value)
    ensures s.instance.None? && !Configured(env) ==> c.result == Err(MissingEnvironment)
    ensures s.instance.None? && Configured(env) && !env.constructorReturns ==> c.result == Err(ConstructorThrew)
    ensures s.instance.None? && Configured(env) && env.constructorReturns ==>
      && c.slot.constructions == s.constructions + 1
      && c.result.value.url == env.url.value
      && c.result.value.anonKey == env.anonKey.value
    ensures c.slot.constructions <= s.constructions + 1
  {
    if s.instance.Some? then
      Call(s, Ok(s.instance.value))
    else if !Configured(env) then
      Call(s, Err(MissingEnvironment))
    else if !env.constructorReturns then
      Call(s, Err(ConstructorThrew))
    else
      var h := Handle(s.constructions, env.url.value, env.anonKey.value);
      Call(Slot(Some(h), s.constructions + 1), Ok(h))
  }

  /** The results of a sequence of calls, each seeing the slot the previous one left. */
  datatype Trace = Trace(slot: Slot, results: seq<Result<Handle, ClientError>>)

  function Calls(s: Slot, envs: seq<Env>): (t: Trace)
    ensures |t.results| == |envs|
    decreases |envs|
  {
    if envs == [] then Trace(s, [])
    else
      var c := GetClient(s, envs[0]);
      var rest := Calls(c.slot, envs[1..]);
      Trace(rest.slot, [c.result] + rest.results)
  }

  /** A slot is initialised exactly when one construction has happened. */
  predicate Sound(s: Slot) {
    s.constructions == (if s.instance.Some? then 1 else 0)
  }

  /** Construction happens at most once: from a sound slot, any sequence of
      calls leaves a sound slot, so at most one client is ever built. */
  lemma {:induction false} AtMostOneConstruction(s: Slot, envs: seq<Env>)
    requires Sound(s)
    ensures Sound(Calls(s, envs).slot)
    ensures Calls(s, envs).slot.constructions <= 1
    decreases |envs|
  {
    if envs != [] {
      AtMostOneConstruction(GetClient(s, envs[0]).slot, envs[1..]);
    }
  }

  /** Once initialised, every later call returns the identical instance,
      whatever the environment, and the slot never changes again. */
  lemma {:induction false} InitialisedIsStable(h: Handle, n: nat, envs: seq<Env>)
    ensures Calls(Slot(Some(h), n), envs).slot == Slot(Some(h), n)
    ensures forall i :: 0 <= i < |envs| ==> Calls(Slot(Some(h), n), envs).results[i] == Ok(h)
    decreases |envs|
  {
    if envs != [] {
      InitialisedIsStable(h, n, envs[1..]);
    }
  }

  /** Every successful call in a run from the initial state returns the same
      client, and the run ends holding exactly that client. */
  lemma {:induction false} OneClientPerRun(envs: seq<Env>, i: nat, j: nat)
    requires i < |envs| && j < |envs|
    requires Calls(Uninitialised, envs).results[i].Ok?
    requires Calls(Uninitialised, envs).results[j].Ok?
    ensures Calls(Uninitialised, envs).results[i] == Calls(Uninitialised, envs).results[j]
    ensures Calls(Uninitialised, envs).slot.instance == Some(Calls(Uninitialised, envs).results[i].value)
  {
    SameClientAfterFirst(Uninitialised, envs, i);
    SameClientAfterFirst(Uninitialised, envs, j);
  }

  /** From an uninitialised slot, every success in a run returns the client
      the run ends with. */
  lemma {:induction false} SameClientAfterFirst(s: Slot, envs: seq<Env>, i: nat)
    requires s.instance.None?
    requires i < |envs|
    requires Calls(s, envs).results[i].Ok?
    ensures Calls(s, envs).slot.instance == Some(Calls(s, envs).results[i].value)
    decreases |envs|
  {
    var c := GetClient(s, envs[0]);
    if c.result.Ok? {
      InitialisedIsStable(c.result.value, c.slot.constructions, envs[1..]);
      if i > 0 {
        assert Calls(s, envs).results[i] == Calls(c.slot, envs[1..]).results[i - 1];
      }
    } else {
      assert i > 0;
      assert Calls(s, envs).results[i] == Calls(c.slot, envs[1..]).results[i - 1];
      SameClientAfterFirst(c.slot, envs[1..], i - 1);
    }
  }

  /** The missing-configuration cases, value by value: an undefined or an
      empty URL or key on a first call throws and stores nothing, before the
      constructor is reached. */
  lemma MissingConfigurationThrows(url: Option<string>, key: Option<string>, constructs: bool)
    requires url == None || url == Some("") || key == None || key == Some("")
    ensures GetClient(Uninitialised, Env(url, key, constructs)) == Call(Uninitialised, Err(MissingEnvironment))
  {
  }

  /** A constructor that throws leaves nothing stored, so the next call with
      a constructor that returns builds the first client. */
  lemma {:induction false} RetryAfterConstructorThrows(first: Env, second: Env)
    requires Configured(first) && !first.constructorReturns
    requires Configured(second) && second.constructorReturns
    ensures Calls(Uninitialised, [first, second]).results
         == [Err(ConstructorThrew), Ok(Handle(0, second.url.value, second.anonKey.value))]
    ensures Calls(Uninitialised, [first, second]).slot.constructions == 1
  {
    var c1 := GetClient(Uninitialised, first);
    assert c1.slot == Uninitialised;
    assert [first, second][1..] == [second];
    var c2 := GetClient(c1.slot, second);
    assert [second][1..] == [];
    assert Calls(c2.slot, []) == Trace(c2.slot, []);
    assert Calls(c1.slot, [second]) == Trace(c2.slot, [c2.result]);
  }
}
