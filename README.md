# Omnipay gateway manager, modelled in Dafny

This project models `LaravelOmnipayManager`, the service that a Laravel application uses to get
Omnipay payment gateways. The manager is a lazy, memoising resolver with three fields:

- a cache from gateway name to gateway instance;
- the active gateway name, which is taken from the configured default the first time it is read;
- an optional HTTP client, which is handed to the gateway factory when an instance is created.

`gateway($name)` works out which name to use and resolves and caches an instance only when none is
cached for that name. `resolve` reads the gateway's configuration entry and fails when the entry is
null. Otherwise it has the factory build an instance for the entry's driver and applies each
configured option through the setter `set` + `ucfirst(option)`, but only when the driver's class
has that setter, declared or inherited. `__call` forwards any other method to the active gateway, or throws.

Files and modules:

- `wrappers.dfy` (`Wrappers`): `Option` for PHP's nullable values and `Result` for a call that
  returns or throws.
- `php_strings.dfy` (`PhpStrings`): PHP's `ucfirst`, which changes only an initial `a`–`z`, and
  the ASCII case folding PHP uses when it compares method names. This is `ucfirst` as PHP 8.2 and
  later define it; earlier versions used the C library's locale-dependent `toupper`.
- `config.dfy` (`OmnipayConfig`): configuration values, a gateway entry (driver and options in array
  order), and the repository lookups `getConfig` and `getDefault`.
- `gateways.dfy` (`Gateways`): a gateway instance as a record holding its identity, driver, client
  and the setter calls applied to it. Also holds the option loop of `resolve` (`ApplyOptions`), the
  function `AppliedCalls` that specifies it, and lemmas about that function.
- `manager.dfy` (`OmnipayManager`): the manager state as a value, step functions giving each
  operation's outcome, lemmas stating the manager's properties, and `class Manager`, whose fields
  change in place. `Gateway`, `Resolve`, `GetGateway` and `Call` are proved to end in the state and
  result their step function gives. `SetGateway` and `SetHttpClient` state their one field update
  directly, and `GetHttpClient` is a function reading the client field.

Modelling choices:

- **Identity.** The factory is modelled as a counter (`nextId`) that gives each new instance a fresh
  id. Two instances are the same object exactly when their ids agree.
- **Driver catalogue.** The factory's catalogue is a map from driver to the method names of its
  class. A driver missing from the catalogue fails with `ClassNotFound`, as the factory does for a
  class it cannot find.
- **Case-insensitive method lookup.** PHP's `ReflectionClass::hasMethod` and `method_exists` ignore
  the case of method names. So `HasMethod` compares names after ASCII case folding, and
  `SetterLookupIgnoresUcfirst` shows that the `ucfirst` step never changes which setter is found.
  The code's case-insensitive match is followed here, not an exact-name match.
- **Null names.** A null name becomes the array key `""` and prints as empty in messages (`Text`).
  When the configured default is itself null, the active name stays unset and the default is read
  again on the next call (`NullDefaultReadAgain`).
- **The literal configuration key.** `getConfig` (LaravelOmnipayManager.php:115) looks up the
  single-quoted key `'omnipay.gateways.{$name}'`. PHP does not interpolate single-quoted strings,
  so every gateway name reads the same entry, stored under that literal text. The model keeps this
  behaviour:
  - `GetConfigIgnoresName` and `ResolutionIgnoresName` show that every name reads the same entry;
  - `InterpolatedEntryIgnored` and `StripeScenarioInterpolatedKey` show that an entry stored under
    `omnipay.gateways.<name>` is never found;
  - `StripeScenario` shows the whole flow, resolution to forwarding, when the entry is stored under the literal key.

  `getConfig` is documented as taking the gateway name (`@param string $name`, line 110), which
  suggests a lookup by name. The code does not look gateways up by name, and the model follows the
  code.
- **Option order.** PHP arrays keep insertion order, so options are applied in the order they are
  written, and that order is kept in the recorded calls.

## Model

| member | source | states |
|---|---|---|
| `PhpStrings.Ucfirst` | src/Ignited/LaravelOmnipay/LaravelOmnipayManager.php:87 | keeps the length and every character after the first; an initial a–z becomes the matching A–Z, and any other first character is left as it is |
| `PhpStrings.Lower` | src/Ignited/LaravelOmnipay/LaravelOmnipayManager.php:89 | case folding as `hasMethod` compares names: each A–Z becomes the matching a–z, every other character is kept, and no A–Z is left |
| `PhpStrings.LowerUcfirst` | src/Ignited/LaravelOmnipay/LaravelOmnipayManager.php:87-89 | under PHP's case-insensitive method comparison, `ucfirst` changes nothing |
| `OmnipayConfig.GetConfigIgnoresName` | src/Ignited/LaravelOmnipay/LaravelOmnipayManager.php:113-116 | every gateway name reads the same entry, the one under the literal key `omnipay.gateways.{$name}` |
| `OmnipayConfig.InterpolatedEntryIgnored` | src/Ignited/LaravelOmnipay/LaravelOmnipayManager.php:115 | an entry stored under `omnipay.gateways.` followed by the real name is not found |
| `Gateways.SetterNameShape` | src/Ignited/LaravelOmnipay/LaravelOmnipayManager.php:87 | the setter name is `set` followed by the option with an initial a–z upper-cased: three characters longer, its fourth character the option's first (upper-cased when a–z), and equal to the option from the option's second character on |
| `Gateways.AppliedPrefix` | src/Ignited/LaravelOmnipay/LaravelOmnipayManager.php:85-92 | the first `n` options produce at most `n` setter calls |
| `Gateways.ApplyOptions` | src/Ignited/LaravelOmnipay/LaravelOmnipayManager.php:85-92 | the option loop appends exactly the calls `AppliedCalls` gives, in option order, and changes nothing else about the gateway |
| `Gateways.AppliedCallsAppend` | src/Ignited/LaravelOmnipay/LaravelOmnipayManager.php:85-92 | applying two option lists in turn is applying their concatenation |
| `Gateways.UnknownOptionSkipped` | src/Ignited/LaravelOmnipay/LaravelOmnipayManager.php:89-91 | an option with no matching setter leaves the applied calls as if it were absent |
| `Gateways.SetterInvokedWhenPresent` | src/Ignited/LaravelOmnipay/LaravelOmnipayManager.php:89-90 | every option whose setter the class has is applied with that option's value |
| `Gateways.CallsComeFromOptions` | src/Ignited/LaravelOmnipay/LaravelOmnipayManager.php:85-91 | every call made is the setter of some option the class supports, with that option's value |
| `Gateways.NoSettersNoCalls` | src/Ignited/LaravelOmnipay/LaravelOmnipayManager.php:85-92 | when the class has none of the setters, no call is made and nothing fails |
| `Gateways.SetterLookupIgnoresUcfirst` | src/Ignited/LaravelOmnipay/LaravelOmnipayManager.php:87-89 | the setter `set`+`ucfirst(o)` exists exactly when `set`+`o` does |
| `OmnipayManager.ActiveNameDefaultsOnce` | src/Ignited/LaravelOmnipay/LaravelOmnipayManager.php:102-130 | while unset, the active name becomes the configured default; once set, it is returned unchanged; a second read gives the same name and state |
| `OmnipayManager.CacheHit` | src/Ignited/LaravelOmnipay/LaravelOmnipayManager.php:62-67 | a name already cached returns the cached instance and leaves every field unchanged |
| `OmnipayManager.SuccessIsCached` | src/Ignited/LaravelOmnipay/LaravelOmnipayManager.php:58-68 | after a success the cache is the old one with the returned instance under the selected name and nothing else changed; the client is untouched |
| `OmnipayManager.FailureIsNotCached` | src/Ignited/LaravelOmnipay/LaravelOmnipayManager.php:62-65 | a failure stores nothing and creates nothing, and the next call for the name resolves again and fails the same way |
| `OmnipayManager.RetryAfterConfigChange` | src/Ignited/LaravelOmnipay/LaravelOmnipayManager.php:58-77 | a failure is not remembered: once an entry appears under the key `getConfig` reads, the same name resolves to a fresh instance of that entry's driver and is cached |
| `OmnipayManager.NullDefaultReadAgain` | src/Ignited/LaravelOmnipay/LaravelOmnipayManager.php:102-130 | a null default leaves the active name unset, so a default configured later is picked up by the next `getGateway` |
| `OmnipayManager.CachedInstancesPersist` | src/Ignited/LaravelOmnipay/LaravelOmnipayManager.php:58-68 | no `gateway` or `__call`, whatever the name (null, `""` and `"0"` included), replaces or removes a cached instance |
| `OmnipayManager.MissingConfigFails` | src/Ignited/LaravelOmnipay/LaravelOmnipayManager.php:72-77 | an uncached name whose configuration is null fails with "is not defined", naming the selected gateway |
| `OmnipayManager.FalsyNameUsesActive` | src/Ignited/LaravelOmnipay/LaravelOmnipayManager.php:60 | null, `""` and `"0"` behave exactly as no argument; any other name leaves the active name alone |
| `OmnipayManager.SetGatewaySelects` | src/Ignited/LaravelOmnipay/LaravelOmnipayManager.php:138-141 | once the active name is `x`, `gateway()` behaves exactly as `gateway(x)`, for every `x` (that `setGateway` leaves the cache alone is `Manager.SetGateway`'s contract) |
| `OmnipayManager.ResolvedWithCurrentClient` | src/Ignited/LaravelOmnipay/LaravelOmnipayManager.php:79 | a newly resolved instance carries the client held at resolution time |
| `OmnipayManager.LaterClientLeavesCache` | src/Ignited/LaravelOmnipay/LaravelOmnipayManager.php:148-151 | after the client changes, a cached name still returns the instance cached before the change |
| `OmnipayManager.ResolutionIgnoresName` | src/Ignited/LaravelOmnipay/LaravelOmnipayManager.php:70-95 | resolution succeeds for one name exactly when it succeeds for any other, gives the same instance for each, and a missing entry fails for every name |
| `OmnipayManager.ResolutionAppliesOptions` | src/Ignited/LaravelOmnipay/LaravelOmnipayManager.php:79-94 | a resolved instance has the entry's driver, the given client and identity, every supported option's setter call, and no other call: each call is the setter of a configured option the class has, carrying that option's value |
| `OmnipayManager.GatewayIdempotent` | src/Ignited/LaravelOmnipay/LaravelOmnipayManager.php:58-68 | repeating a successful `gateway($name)` returns the identical instance and changes nothing |
| `OmnipayManager.GatewayPreservesValid` | src/Ignited/LaravelOmnipay/LaravelOmnipayManager.php:62-65 | cached instances stay distinct objects under distinct names, and a new instance is fresh |
| `OmnipayManager.CallOutcome` | src/Ignited/LaravelOmnipay/LaravelOmnipayManager.php:163-171 | `__call` changes the state only as `gateway()` does. It returns the forwarded method's result when the class has the method. Otherwise it fails with "not supported", naming the method and the active gateway. A resolution failure propagates |
| `OmnipayManager.StripeScenario` | src/Ignited/LaravelOmnipay/LaravelOmnipayManager.php:58-95 | with the entry under the literal key, `gateway()` resolves the default, applies only `setApiKey`, caches and returns the identical instance; forwarding `purchase` fails naming it and the gateway |
| `OmnipayManager.StripeScenarioInterpolatedKey` | src/Ignited/LaravelOmnipay/LaravelOmnipayManager.php:113-116 | with the entry under `omnipay.gateways.stripe`, `gateway()` fails with "Gateway [stripe] is not defined" |
| `OmnipayManager.Manager.constructor` | src/Ignited/LaravelOmnipay/LaravelOmnipayManager.php:47-51 | a new manager has an empty cache, no active name and no client |
| `OmnipayManager.Manager.Gateway` | src/Ignited/LaravelOmnipay/LaravelOmnipayManager.php:58-68 | updates the cache in place exactly as `GatewayStep` says, and keeps the distinct-instances invariant |
| `OmnipayManager.Manager.Resolve` | src/Ignited/LaravelOmnipay/LaravelOmnipayManager.php:70-95 | returns `Resolution` for the current client and consumes a fresh identity only on success |
| `OmnipayManager.Manager.GetGateway` | src/Ignited/LaravelOmnipay/LaravelOmnipayManager.php:123-130 | fills the active name from the default while it is unset and returns it, touching no other field |
| `OmnipayManager.Manager.SetGateway` | src/Ignited/LaravelOmnipay/LaravelOmnipayManager.php:138-141 | sets the active name and changes no other field, the cache included |
| `OmnipayManager.Manager.SetHttpClient` | src/Ignited/LaravelOmnipay/LaravelOmnipayManager.php:148-151 | sets the client and changes no other field, so cached instances keep their client |
| `OmnipayManager.Manager.GetHttpClient` | src/Ignited/LaravelOmnipay/LaravelOmnipayManager.php:158-161 | returns the client last set, so it round-trips with `SetHttpClient` |
| `OmnipayManager.Manager.Call` | src/Ignited/LaravelOmnipay/LaravelOmnipayManager.php:163-171 | looks the active gateway up twice, as the source does, and ends exactly as `CallStep` says |

## Left out

- `creditCard` (LaravelOmnipayManager.php:97-100) only constructs Omnipay's external `CreditCard`
  value object, so it is not modelled.
- `BaseServiceProvider` is not modelled. It registers the manager as a container singleton and
  lists the service name, and it has no logic of its own.
- The internals of `GatewayFactory::create`, `Helper::getGatewayClassName` and `ReflectionClass`
  are not modelled. They are reduced to the driver catalogue and the `nextId` counter.
- What forwarded methods do is not modelled: payments, HTTP, their exceptions and their changes to
  the gateway object's own state. The `invoke` parameter stands for a forwarded method's result.
- The configuration repository's dotted-key navigation is not modelled. An entry is found by its
  full key text.
- A configuration entry that is not null but malformed is not modelled. This covers a value that is
  not an array and an entry missing `driver` or `options`.
- A non-string value in `omnipay.default` or in `setGateway` is not modelled.
- PHP's conversion of numeric-string array keys to integers is not modelled. It does not change
  which names share a cache entry.
- Concurrency is not modelled. The source is single-threaded.
- Locale-dependent `ucfirst` is not modelled. Before PHP 8.2, `ucfirst` used the C library's
  `toupper`, which under some locales also changes a non-ASCII first byte; the model follows PHP
  8.2 and later, where only `a`–`z` changes.
- The configuration and the driver catalogue are fixed for the life of a `Manager` object (its
  `env` is a constant), while the source re-reads the application's configuration on every
  `getDefault` and `getConfig` (lines 104 and 115) and Laravel's configuration can change at
  runtime. A change between calls is stated only on the step functions, which take the
  configuration per call: `RetryAfterConfigChange` and `NullDefaultReadAgain`.
- Method visibility is not modelled. `ReflectionClass::hasMethod` (line 89) and `method_exists`
  (line 165) also find protected and private methods, which the manager cannot call, and PHP then
  throws. The method set of a driver stands for its callable methods.
- A setter that throws is not modelled. Every setter found is assumed to return normally and is
  recorded as applied; in the source such an exception aborts `resolve` and nothing is cached.
