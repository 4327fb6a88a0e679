/**
 * The gateway manager: a memoising resolver from gateway names to gateway
 * instances. Its state is the cache of resolved instances, the active
 * gateway name and the HTTP client handed to the factory. The step functions
 * below give each public operation's outcome on a snapshot of that state;
 * class Manager performs the operations in place and is proved against them.
 */
module OmnipayManager {
  import opened Wrappers
  import opened PhpStrings
  import opened OmnipayConfig
  import opened Gateways

  /** The two exceptions the manager throws, and the factory's failure on an unknown driver. */
  datatype Error =
    | NotDefined(gateway: string)                 // "Gateway [name] is not defined."
    | NotSupported(methodName: string, gateway: string) // "Method [m] is not supported by the gateway [name]."
    | ClassNotFound(driver: string)                // the factory finds no class for the driver

  /**
   * What the manager is built with: the application's configuration and the
   * factory's catalogue, which gives the method names of each driver's class.
   */
  datatype Env = Env(config: Repository, drivers: map<string, set<string>>)

  /**
   * The manager's mutable fields: resolved instances by name, the active
   * gateway name, the HTTP client override, and the identity the factory
   * gives the next instance it creates.
   */
  datatype State = State(gateways: map<string, Instance>, active: Option<string>,
                         httpClient: Option<Client>, nextId: nat)

  /** A freshly constructed manager. */
  const Initial := State(map[], None, None, 0)

  /** PHP's falsy strings: null, "" and "0". */
  predicate Falsy(name: Option<string>) {
    name == None || name == Some("") || name == Some("0")
  }

  /** A possibly-null name as PHP uses it as an array key or in a message: null becomes "". */
  function Text(name: Option<string>): string {
    name.GetOr("")
  }

  /** The methods of the class an instance was created from. */
  function MethodsOf(env: Env, instance: Instance): set<string> {
    if instance.driver in env.drivers then env.drivers[instance.driver] else {}
  }

  /**
   * Every cached instance was created by this manager's factory (its id is
   * below the next one), and distinct names hold distinct objects.
   */
  ghost predicate ValidState(s: State) {
    && (forall k | k in s.gateways :: s.gateways[k].id < s.nextId)
    && (forall k, k' | k in s.gateways && k' in s.gateways && k != k' :: s.gateways[k].id != s.gateways[k'].id)
  }

  /** `getGateway`: the active name, filled in from the configured default while unset. */
  function ActiveName(env: Env, s: State): (State, Option<string>) {
    var name := if s.active.Some? then s.active else GetDefault(env.config);
    (s.(active := name), name)
  }

  /** The name `gateway($name)` works with: a falsy argument is replaced by the active name. */
  function SelectName(env: Env, s: State, name: Option<string>): (State, Option<string>) {
    if Falsy(name) then ActiveName(env, s) else (s, name)
  }

  /**
   * `resolve`: the configured entry, the instance the factory creates for its
   * driver with the current client, and the setter calls its options produce.
   */
  function Resolution(env: Env, client: Option<Client>, id: nat, name: Option<string>): Result<Instance, Error> {
    match GetConfig(env.config, Text(name))
    case None => Failure(NotDefined(Text(name)))
    case Some(entry) =>
      if entry.driver !in env.drivers then Failure(ClassNotFound(entry.driver))
      else Success(Instance(id, entry.driver, client, AppliedCalls(env.drivers[entry.driver], entry.options)))
  }

  /** `gateway($name)`: the cached instance, or a newly resolved one that is then cached. */
  function GatewayStep(env: Env, s: State, name: Option<string>): (State, Result<Instance, Error>) {
    var (s1, n) := SelectName(env, s, name);
    var key := Text(n);
    if key in s1.gateways then (s1, Success(s1.gateways[key]))
    else
      match Resolution(env, s1.httpClient, s1.nextId, n)
      case Failure(e) => (s1, Failure(e))
      case Success(g) => (s1.(gateways := s1.gateways[key := g], nextId := s1.nextId + 1), Success(g))
  }

  /**
   * `__call($method, $parameters)`: forwards to the active gateway when its
   * class has the method; `invoke` stands for what that method returns.
   */
  function CallStep(env: Env, s: State, methodName: string, parameters: seq<Value>,
                    invoke: (Instance, string, seq<Value>) -> Value): (State, Result<Value, Error>) {
    var (s1, r) := GatewayStep(env, s, None);
    match r
    case Failure(e) => (s1, Failure(e))
    case Success(g) =>
      if HasMethod(MethodsOf(env, g), methodName) then (s1, Success(invoke(g, methodName, parameters)))
      else (s1, Failure(NotSupported(methodName, Text(s1.active))))
  }

  // ---------------------------------------------------------------------------
  // Properties of the state machine

  /** While unset, the active name becomes the configured default; once set, it stays. */
  lemma ActiveNameDefaultsOnce(env: Env, s: State)
    ensures var (s1, n) := ActiveName(env, s);
            && (s.active.None? ==> n == GetDefault(env.config))
            && (s.active.Some? ==> n == s.active && s1 == s)
            && s1 == s.(active := n)
            && ActiveName(env, s1) == (s1, n)
  {
  }

  /** A name already in the cache yields the cached instance and changes nothing. */
  lemma CacheHit(env: Env, s: State, name: string)
    requires !Falsy(Some(name)) && name in s.gateways
    ensures GatewayStep(env, s, Some(name)) == (s, Success(s.gateways[name]))
  {
  }

  /**
   * A successful call leaves the cache holding the returned instance under the
   * selected name, with every other entry as it was.
   */
  lemma SuccessIsCached(env: Env, s: State, name: Option<string>)
    ensures var (s1, n) := SelectName(env, s, name);
            var (s2, r) := GatewayStep(env, s, name);
            r.Success? ==> && s2.gateways == s.gateways[Text(n) := r.value]
                           && s2.active == s1.active && s2.httpClient == s.httpClient
  {
    var (s1, n) := SelectName(env, s, name);
    var key := Text(n);
    if key in s1.gateways {
      assert s.gateways[key := s.gateways[key]] == s.gateways;
    }
  }

  /**
   * A failed resolution stores nothing and creates no instance, so the next
   * call for the same name resolves again, and fails again the same way.
   */
  lemma FailureIsNotCached(env: Env, s: State, name: Option<string>)
    ensures var (s2, r) := GatewayStep(env, s, name);
            r.Failure? ==> && s2.gateways == s.gateways && s2.nextId == s.nextId
                           && GatewayStep(env, s2, name) == (s2, r)
  {
  }

  /**
   * The configuration is read on every resolution, so once an entry appears
   * under the key `getConfig` reads, retrying a failed name succeeds with a
   * fresh instance of that entry's driver.
   */
  lemma RetryAfterConfigChange(env: Env, s: State, name: string, entry: GatewayConfig)
    requires !Falsy(Some(name)) && entry.driver in env.drivers
    requires GatewayStep(env, s, Some(name)).1.Failure?
    ensures var s2 := GatewayStep(env, s, Some(name)).0;
            var env2 := env.(config := env.config.(entries := env.config.entries[GatewayKey(name) := entry]));
            GatewayStep(env2, s2, Some(name))
              == (s2.(gateways := s2.gateways[name := Instance(s2.nextId, entry.driver, s2.httpClient,
                                                                AppliedCalls(env.drivers[entry.driver], entry.options))],
                      nextId := s2.nextId + 1),
                  Success(Instance(s2.nextId, entry.driver, s2.httpClient,
                                   AppliedCalls(env.drivers[entry.driver], entry.options))))
  {
  }

  /**
   * The default is read on every `getGateway` while the active name is unset,
   * so a null default followed by a configured one yields the new default.
   */
  lemma NullDefaultReadAgain(env: Env, s: State, default: string)
    requires s.active.None? && GetDefault(env.config).None?
    ensures var s1 := ActiveName(env, s).0;
            var env2 := env.(config := env.config.(default := Some(default)));
            s1.active.None? && ActiveName(env2, s1).1 == Some(default)
  {
  }

  /** No call of `gateway` or `__call`, whatever its argument, replaces or removes a cached instance. */
  lemma CachedInstancesPersist(env: Env, s: State, name: Option<string>, methodName: string,
                               parameters: seq<Value>, invoke: (Instance, string, seq<Value>) -> Value)
    ensures var s2 := GatewayStep(env, s, name).0;
            forall k | k in s.gateways :: k in s2.gateways && s2.gateways[k] == s.gateways[k]
    ensures var s2 := CallStep(env, s, methodName, parameters, invoke).0;
            forall k | k in s.gateways :: k in s2.gateways && s2.gateways[k] == s.gateways[k]
  {
  }

  /** Missing configuration is reported as NotDefined, naming the selected gateway. */
  lemma MissingConfigFails(env: Env, s: State, name: Option<string>)
    ensures var (s1, n) := SelectName(env, s, name);
            Text(n) !in s1.gateways && GetConfig(env.config, Text(n)).None? ==>
              GatewayStep(env, s, name).1 == Failure(NotDefined(Text(n)))
  {
  }

  /** Every falsy argument behaves as no argument; any other name leaves the active name alone. */
  lemma FalsyNameUsesActive(env: Env, s: State, name: Option<string>)
    ensures Falsy(name) ==> GatewayStep(env, s, name) == GatewayStep(env, s, None)
    ensures !Falsy(name) ==> GatewayStep(env, s, name).0.active == s.active
  {
  }

  /** After `setGateway(x)`, `gateway()` is `gateway(x)`, and the cache is untouched by the setter. */
  lemma SetGatewaySelects(env: Env, s: State, x: string)
    ensures var t := s.(active := Some(x));
            GatewayStep(env, t, None) == GatewayStep(env, t, Some(x))
  {
  }

  /** A newly resolved instance carries the client held at resolution time. */
  lemma ResolvedWithCurrentClient(env: Env, s: State, name: Option<string>)
    ensures var (s1, n) := SelectName(env, s, name);
            var r := GatewayStep(env, s, name).1;
            Text(n) !in s.gateways && r.Success? ==> r.value.client == s.httpClient
  {
  }

  /** Changing the client later leaves already cached instances as they were. */
  lemma LaterClientLeavesCache(env: Env, s: State, name: string, c: Option<Client>)
    requires !Falsy(Some(name)) && name in s.gateways
    ensures GatewayStep(env, s.(httpClient := c), Some(name)).1 == Success(s.gateways[name])
  {
  }

  /**
   * Because the configuration key ignores the name, every gateway name that
   * is not yet cached resolves to an instance of the same driver with the
   * same setter calls, or fails for every such name.
   */
  lemma ResolutionIgnoresName(env: Env, c: Option<Client>, id: nat, a: Option<string>, b: Option<string>)
    ensures Resolution(env, c, id, a).Success? <==> Resolution(env, c, id, b).Success?
    ensures Resolution(env, c, id, a).Success? ==> Resolution(env, c, id, a) == Resolution(env, c, id, b)
    ensures Resolution(env, c, id, a) == Failure(NotDefined(Text(a))) ==>
              Resolution(env, c, id, b) == Failure(NotDefined(Text(b)))
  {
    GetConfigIgnoresName(env.config, Text(a), Text(b));
  }

  /** A resolved instance's setter calls are exactly the configured options the driver has setters for. */
  lemma ResolutionAppliesOptions(env: Env, c: Option<Client>, id: nat, name: Option<string>)
    ensures var r := Resolution(env, c, id, name);
            r.Success? ==> && GetConfig(env.config, Text(name)).Some?
                           && var entry := GetConfig(env.config, Text(name)).value;
                           && r.value == Instance(id, entry.driver, c, r.value.calls)
                           && (forall k :: (0 <= k < |entry.options| &&
                                              HasMethod(MethodsOf(env, r.value), SetterName(entry.options[k].0))) ==>
                                 SetterCall(SetterName(entry.options[k].0), entry.options[k].1) in r.value.calls)
                           && (forall call :: call in r.value.calls ==>
                                 exists k :: && 0 <= k < |entry.options|
                                             && HasMethod(MethodsOf(env, r.value), SetterName(entry.options[k].0))
                                             && call == SetterCall(SetterName(entry.options[k].0), entry.options[k].1))
  {
    var r := Resolution(env, c, id, name);
    if r.Success? {
      var entry := GetConfig(env.config, Text(name)).value;
      forall k | 0 <= k < |entry.options| && HasMethod(MethodsOf(env, r.value), SetterName(entry.options[k].0))
        ensures SetterCall(SetterName(entry.options[k].0), entry.options[k].1) in r.value.calls
      {
        SetterInvokedWhenPresent(env.drivers[entry.driver], entry.options, k);
      }
      forall call | call in r.value.calls
        ensures exists k :: && 0 <= k < |entry.options|
                            && HasMethod(MethodsOf(env, r.value), SetterName(entry.options[k].0))
                            && call == SetterCall(SetterName(entry.options[k].0), entry.options[k].1)
      {
        CallsComeFromOptions(env.drivers[entry.driver], entry.options, call);
      }
    }
  }

  /** Repeating a successful `gateway($name)` returns the identical instance and changes nothing. */
  lemma {:induction false} GatewayIdempotent(env: Env, s: State, name: Option<string>)
    ensures var (s2, r) := GatewayStep(env, s, name);
            r.Success? ==> GatewayStep(env, s2, name) == (s2, r)
  {
    var (s1, n) := SelectName(env, s, name);
    var (s2, r) := GatewayStep(env, s, name);
    if r.Success? {
      assert s2.active == s1.active;
      assert SelectName(env, s2, name) == (s2, n);
      assert Text(n) in s2.gateways && s2.gateways[Text(n)] == r.value;
    }
  }

  /**
   * `gateway` keeps the at-most-one-object-per-name invariant: a new instance
   * is fresh, so it differs from every instance cached under another name.
   */
  lemma GatewayPreservesValid(env: Env, s: State, name: Option<string>)
    requires ValidState(s)
    ensures var (s2, r) := GatewayStep(env, s, name);
            && ValidState(s2)
            && (r.Success? ==> r.value.id < s2.nextId)
  {
  }

  /**
   * `__call` changes the state only as `gateway()` does, and fails with
   * NotSupported, naming the method and the active gateway, exactly when the
   * active gateway resolves but its class lacks the method.
   */
  lemma CallOutcome(env: Env, s: State, methodName: string, parameters: seq<Value>,
                    invoke: (Instance, string, seq<Value>) -> Value)
    ensures var (s1, g) := GatewayStep(env, s, None);
            var (s2, r) := CallStep(env, s, methodName, parameters, invoke);
            && s2 == s1
            && (g.Failure? ==> r == Failure(g.error))
            && (g.Success? && HasMethod(MethodsOf(env, g.value), methodName) ==>
                  r == Success(invoke(g.value, methodName, parameters)))
            && (g.Success? && !HasMethod(MethodsOf(env, g.value), methodName) ==>
                  r == Failure(NotSupported(methodName, Text(s1.active))))
  {
  }

  /** A hypothetical Stripe driver whose class has `setApiKey` and no other setter of interest. */
  function StripeDrivers(): map<string, set<string>> {
    map["Stripe" := {"setApiKey"}]
  }

  /** A Stripe entry with one supported option and one the driver lacks. */
  function StripeEntry(): GatewayConfig {
    GatewayConfig("Stripe", [("apiKey", Str("sk_test_1")), ("testMode", Bool(true))])
  }

  /**
   * With the entry stored under the key `getConfig` really reads, `gateway()`
   * resolves the default "stripe", calls only `setApiKey`, caches the
   * instance and returns the identical one again; forwarding `purchase`,
   * which the class lacks, fails naming the method and "stripe".
   */
  lemma {:induction false} StripeScenario(invoke: (Instance, string, seq<Value>) -> Value)
    ensures var env := Env(Repository(map["omnipay.gateways.{$name}" := StripeEntry()], Some("stripe")), StripeDrivers());
            var (s1, r1) := GatewayStep(env, Initial, None);
            && r1 == Success(Instance(0, "Stripe", None, [SetterCall("setApiKey", Str("sk_test_1"))]))
            && s1 == State(map["stripe" := r1.value], Some("stripe"), None, 1)
            && GatewayStep(env, s1, None) == (s1, r1)
            && CallStep(env, Initial, "purchase", [], invoke) == (s1, Failure(NotSupported("purchase", "stripe")))
  {
    var env := Env(Repository(map["omnipay.gateways.{$name}" := StripeEntry()], Some("stripe")), StripeDrivers());
    var methods := StripeDrivers()["Stripe"];
    assert SetterName("apiKey") == "setApiKey";
    assert HasMethod(methods, "setApiKey") by {
      assert "setApiKey" in methods && SameName("setApiKey", "setApiKey");
    }
    assert !HasMethod(methods, SetterName("testMode")) by {
      assert |SetterName("testMode")| == 11;
    }
    var options := StripeEntry().options;
    assert options[..1][..0] == [] && options[..2][..1] == options[..1];
    assert AppliedCalls(methods, options) == [SetterCall("setApiKey", Str("sk_test_1"))];
    var (s1, r1) := GatewayStep(env, Initial, None);
    GatewayIdempotent(env, Initial, None);
    assert !HasMethod(methods, "purchase") by {
      assert |"purchase"| == 8;
    }
  }

  /**
   * With the entry stored under the interpolated key "omnipay.gateways.stripe",
   * the same call fails: the literal key finds nothing.
   */
  lemma StripeScenarioInterpolatedKey()
    ensures var env := Env(Repository(map["omnipay.gateways.stripe" := StripeEntry()], Some("stripe")), StripeDrivers());
            GatewayStep(env, Initial, None) == (Initial.(active := Some("stripe")), Failure(NotDefined("stripe")))
  {
    assert |"omnipay.gateways.stripe"| != |"omnipay.gateways.{$name}"|;
  }

  // ---------------------------------------------------------------------------
  // The manager object

  class Manager {
    /** The application configuration and the gateway factory the manager was built with. */
    const env: Env
    /** `$gateways`: resolved instances by name. */
    var gateways: map<string, Instance>
    /** `$gateway`: the active gateway name, null until read or set. */
    var active: Option<string>
    /** `$httpClient`: the client handed to the factory, null for its default. */
    var httpClient: Option<Client>
    /** The identity the factory gives the next instance it creates. */
    var nextId: nat

    function Snapshot(): State
      reads this
    {
      State(gateways, active, httpClient, nextId)
    }

    ghost predicate Valid()
      reads this
    {
      ValidState(Snapshot())
    }

    constructor (config: Repository, drivers: map<string, set<string>>)
      ensures env == Env(config, drivers) && Snapshot() == Initial && Valid()
    {
      env := Env(config, drivers);
      gateways := map[];
      active := None;
      httpClient := None;
      nextId := 0;
    }

    /** Returns the instance for `name` (or the active gateway), resolving and caching it on first use. */
    method Gateway(name: Option<string>) returns (r: Result<Instance, Error>)
      requires Valid()
      modifies this
      ensures Valid()
      ensures (Snapshot(), r) == GatewayStep(env, old(Snapshot()), name)
    {
      ghost var s := Snapshot();
      GatewayPreservesValid(env, s, name);
      var n := name;
      if Falsy(name) {
        n := GetGateway();
      }
      var key := Text(n);
      if key !in gateways {
        var resolved := Resolve(n);
        if resolved.Failure? {
          return resolved;
        }
        gateways := gateways[key := resolved.value];
      }
      r := Success(gateways[key]);
    }

    /** Creates and configures the instance for `name`; fails when its configuration is missing. */
    method Resolve(name: Option<string>) returns (r: Result<Instance, Error>)
      requires Valid()
      modifies this`nextId
      ensures Valid()
      ensures r == Resolution(env, httpClient, old(nextId), name)
      ensures nextId == if r.Success? then old(nextId) + 1 else old(nextId)
    {
      var config := GetConfig(env.config, Text(name));
      if config.None? {
        return Failure(NotDefined(Text(name)));
      }
      var driver := config.value.driver;
      if driver !in env.drivers {
        return Failure(ClassNotFound(driver));
      }
      var created := Instance(nextId, driver, GetHttpClient(), []);
      nextId := nextId + 1;
      var configured := ApplyOptions(created, env.drivers[driver], config.value.options);
      assert [] + AppliedCalls(env.drivers[driver], config.value.options)
          == AppliedCalls(env.drivers[driver], config.value.options);
      r := Success(configured);
    }

    /** The active gateway name, taken from the configured default while unset. */
    method GetGateway() returns (n: Option<string>)
      requires Valid()
      modifies this`active
      ensures Valid()
      ensures (Snapshot(), n) == ActiveName(env, old(Snapshot()))
    {
      if active.None? {
        active := GetDefault(env.config);
      }
      n := active;
    }

    /** Sets the active gateway name; the cache is not touched. */
    method SetGateway(name: Option<string>)
      requires Valid()
      modifies this`active
      ensures Valid()
      ensures Snapshot() == old(Snapshot()).(active := name)
    {
      active := name;
    }

    /** Sets the client handed to the factory for gateways resolved from now on. */
    method SetHttpClient(client: Option<Client>)
      requires Valid()
      modifies this`httpClient
      ensures Valid()
      ensures Snapshot() == old(Snapshot()).(httpClient := client)
    {
      httpClient := client;
    }

    /** The client set last, or null. */
    function GetHttpClient(): (c: Option<Client>)
      reads this
      ensures Snapshot().httpClient == c
    {
      httpClient
    }

    /** Forwards a call to the active gateway, or throws NotSupported when it has no such method. */
    method Call(methodName: string, parameters: seq<Value>, invoke: (Instance, string, seq<Value>) -> Value)
      returns (r: Result<Value, Error>)
      requires Valid()
      modifies this
      ensures Valid()
      ensures (Snapshot(), r) == CallStep(env, old(Snapshot()), methodName, parameters, invoke)
    {
      ghost var s := Snapshot();
      var first := Gateway(None);
      if first.Failure? {
        return Failure(first.error);
      }
      if HasMethod(MethodsOf(env, first.value), methodName) {
        GatewayIdempotent(env, s, None);
        var target := Gateway(None);
        return Success(invoke(target.value, methodName, parameters));
      }
      r := Failure(NotSupported(methodName, Text(active)));
    }
  }
}
