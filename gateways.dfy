/**
 * Gateway instances as the manager sees them, and the option loop of
 * `resolve`: for each configured option, the setter `set` + ucfirst(option)
 * is called when the driver's class has it, and skipped otherwise.
 */
module Gateways {
  import opened Wrappers
  import opened PhpStrings
  import opened OmnipayConfig

  /** An HTTP client handed to the gateway factory. */
  datatype Client = Client(id: nat)

  /** One setter invocation on a gateway: the method name and its argument. */
  datatype SetterCall = SetterCall(setter: string, value: Value)

  /**
   * A gateway object: `id` is its identity (two instances are the same object
   * exactly when their ids agree), `driver` the driver it was created for,
   * `client` the HTTP client the factory received, and `calls` the setter
   * calls applied to it so far.
   */
  datatype Instance = Instance(id: nat, driver: string, client: Option<Client>, calls: seq<SetterCall>)

  /** The setter an option is applied through. */
  function SetterName(option: string): (r: string)
  {
    "set" + Ucfirst(option)
  }

  /**
   * The setter is `set` followed by the option name with an initial a-z
   * upper-cased and every other character kept.
   */
  lemma SetterNameShape(option: string)
    ensures var r := SetterName(option);
            && |r| == |option| + 3 && r[..3] == "set"
            && (|option| > 0 && 'a' <= option[0] <= 'z' ==> r[3] as int == option[0] as int - 32)
            && (|option| > 0 && !('a' <= option[0] <= 'z') ==> r[3] == option[0])
            && (forall i :: 4 <= i < |r| ==> r[i] == option[i - 3])
  {
  }

  /** A class with these method names has a method called `name`; PHP ignores case here. */
  predicate HasMethod(methods: set<string>, name: string) {
    exists m :: m in methods && SameName(m, name)
  }

  /** The call one option contributes: its setter with its value, or nothing. */
  function CallFor(methods: set<string>, option: (string, Value)): seq<SetterCall> {
    var setter := SetterName(option.0);
    if HasMethod(methods, setter) then [SetterCall(setter, option.1)] else []
  }

  /** The setter calls the first `n` options produce on a class with the given methods, in option order. */
  function AppliedPrefix(methods: set<string>, options: seq<(string, Value)>, n: nat): (r: seq<SetterCall>)
    requires n <= |options|
    ensures |r| <= n
  {
    if n == 0 then [] else AppliedPrefix(methods, options, n - 1) + CallFor(methods, options[n - 1])
  }

  /** The setter calls a whole option list produces. */
  function AppliedCalls(methods: set<string>, options: seq<(string, Value)>): seq<SetterCall> {
    AppliedPrefix(methods, options, |options|)
  }

  /**
   * The option loop of `resolve`: applies every option whose setter the
   * class has to the gateway, in order.
   */
  method ApplyOptions(gateway: Instance, methods: set<string>, options: seq<(string, Value)>)
    returns (configured: Instance)
    ensures configured == gateway.(calls := gateway.calls + AppliedCalls(methods, options))
  {
    configured := gateway;
    var i := 0;
    assert gateway.calls + AppliedPrefix(methods, options, 0) == gateway.calls;
    while i < |options|
      invariant 0 <= i <= |options|
      invariant configured.id == gateway.id && configured.driver == gateway.driver && configured.client == gateway.client
      invariant configured.calls == gateway.calls + AppliedPrefix(methods, options, i)
    {
      var option := options[i];
      var setter := SetterName(option.0);
      LoopStep(gateway.calls, methods, options, i);
      if HasMethod(methods, setter) {
        configured := configured.(calls := configured.calls + [SetterCall(setter, option.1)]);
      }
      i := i + 1;
    }
  }

  /** One iteration of the option loop extends the applied prefix by one option. */
  lemma LoopStep(base: seq<SetterCall>, methods: set<string>, options: seq<(string, Value)>, i: nat)
    requires i < |options|
    ensures var setter := SetterName(options[i].0);
            var done := base + AppliedPrefix(methods, options, i);
            base + AppliedPrefix(methods, options, i + 1)
              == if HasMethod(methods, setter) then done + [SetterCall(setter, options[i].1)] else done
  {
    PrefixStep(methods, options, i + 1);
    AppendAssociative(base, AppliedPrefix(methods, options, i), CallFor(methods, options[i]));
  }

  /** The calls of a prefix do not depend on the options after it. */
  lemma {:induction false} PrefixIgnoresRest(methods: set<string>, a: seq<(string, Value)>, b: seq<(string, Value)>, n: nat)
    requires n <= |a|
    ensures AppliedPrefix(methods, a + b, n) == AppliedPrefix(methods, a, n)
  {
    if n > 0 {
      PrefixIgnoresRest(methods, a, b, n - 1);
      assert (a + b)[n - 1] == a[n - 1];
      PrefixStep(methods, a + b, n);
      PrefixStep(methods, a, n);
    }
  }

  /** The calls of `a + b` up to `|a| + k` are those of `a` followed by those of the first `k` of `b`. */
  lemma {:induction false} PrefixOfAppend(methods: set<string>, a: seq<(string, Value)>, b: seq<(string, Value)>, k: nat)
    requires k <= |b|
    ensures AppliedPrefix(methods, a + b, |a| + k) == AppliedCalls(methods, a) + AppliedPrefix(methods, b, k)
  {
    if k == 0 {
      PrefixIgnoresRest(methods, a, b, |a|);
    } else {
      PrefixOfAppend(methods, a, b, k - 1);
      assert (a + b)[|a| + k - 1] == b[k - 1];
      PrefixStep(methods, a + b, |a| + k);
      PrefixStep(methods, b, k);
      AppendAssociative(AppliedCalls(methods, a), AppliedPrefix(methods, b, k - 1), CallFor(methods, b[k - 1]));
    }
  }

  /** One more option adds exactly that option's call. */
  lemma PrefixStep(methods: set<string>, options: seq<(string, Value)>, n: nat)
    requires 0 < n <= |options|
    ensures AppliedPrefix(methods, options, n) == AppliedPrefix(methods, options, n - 1) + CallFor(methods, options[n - 1])
  {
  }

  /** Concatenation of call sequences is associative. */
  lemma AppendAssociative(x: seq<SetterCall>, y: seq<SetterCall>, z: seq<SetterCall>)
    ensures x + y + z == x + (y + z)
  {
  }

  /** Applying two option lists one after the other is applying their concatenation. */
  lemma AppliedCallsAppend(methods: set<string>, a: seq<(string, Value)>, b: seq<(string, Value)>)
    ensures AppliedCalls(methods, a + b) == AppliedCalls(methods, a) + AppliedCalls(methods, b)
  {
    PrefixOfAppend(methods, a, b, |b|);
  }

  /** An option with no matching setter is skipped without a trace. */
  lemma UnknownOptionSkipped(methods: set<string>, a: seq<(string, Value)>, option: (string, Value), b: seq<(string, Value)>)
    requires !HasMethod(methods, SetterName(option.0))
    ensures AppliedCalls(methods, a + [option] + b) == AppliedCalls(methods, a + b)
  {
    assert AppliedCalls(methods, [option]) == [];
    AppliedCallsAppend(methods, a, [option]);
    AppliedCallsAppend(methods, a + [option], b);
    AppliedCallsAppend(methods, a, b);
  }

  /** Every option whose setter exists is applied with its own value. */
  lemma SetterInvokedWhenPresent(methods: set<string>, options: seq<(string, Value)>, k: nat)
    requires k < |options| && HasMethod(methods, SetterName(options[k].0))
    ensures SetterCall(SetterName(options[k].0), options[k].1) in AppliedCalls(methods, options)
  {
    PrefixKeepsCall(methods, options, k, |options|);
  }

  /** Once the option at `k` has been applied, its call stays among the calls of every longer prefix. */
  lemma {:induction false} PrefixKeepsCall(methods: set<string>, options: seq<(string, Value)>, k: nat, n: nat)
    requires k < n <= |options| && HasMethod(methods, SetterName(options[k].0))
    ensures SetterCall(SetterName(options[k].0), options[k].1) in AppliedPrefix(methods, options, n)
  {
    PrefixStep(methods, options, n);
    if n - 1 > k {
      PrefixKeepsCall(methods, options, k, n - 1);
    }
  }

  /** Every call made comes from an option whose setter exists, with that option's value. */
  lemma CallsComeFromOptions(methods: set<string>, options: seq<(string, Value)>, c: SetterCall)
    requires c in AppliedCalls(methods, options)
    ensures exists k :: 0 <= k < |options| && HasMethod(methods, SetterName(options[k].0))
                     && c == SetterCall(SetterName(options[k].0), options[k].1)
  {
    PrefixCallsComeFromOptions(methods, options, |options|, c);
  }

  /** The calls of a prefix come from options inside that prefix. */
  lemma {:induction false} PrefixCallsComeFromOptions(methods: set<string>, options: seq<(string, Value)>, n: nat, c: SetterCall)
    requires n <= |options| && c in AppliedPrefix(methods, options, n)
    ensures exists k :: 0 <= k < n && HasMethod(methods, SetterName(options[k].0))
                     && c == SetterCall(SetterName(options[k].0), options[k].1)
  {
    PrefixStep(methods, options, n);
    if c in AppliedPrefix(methods, options, n - 1) {
      PrefixCallsComeFromOptions(methods, options, n - 1, c);
    } else {
      assert c in CallFor(methods, options[n - 1]);
    }
  }

  /** When the class has none of the setters, no call is made and nothing fails. */
  lemma NoSettersNoCalls(methods: set<string>, options: seq<(string, Value)>)
    requires forall k :: 0 <= k < |options| ==> !HasMethod(methods, SetterName(options[k].0))
    ensures AppliedCalls(methods, options) == []
  {
    PrefixWithoutSetters(methods, options, |options|);
  }

  /** A prefix in which no setter exists produces no call. */
  lemma {:induction false} PrefixWithoutSetters(methods: set<string>, options: seq<(string, Value)>, n: nat)
    requires n <= |options|
    requires forall k :: 0 <= k < n ==> !HasMethod(methods, SetterName(options[k].0))
    ensures AppliedPrefix(methods, options, n) == []
  {
    if n > 0 {
      PrefixWithoutSetters(methods, options, n - 1);
      PrefixStep(methods, options, n);
    }
  }

  /**
   * Because PHP method names ignore case, upper-casing the option's first
   * letter never changes which setter is found.
   */
  lemma SetterLookupIgnoresUcfirst(methods: set<string>, option: string)
    ensures HasMethod(methods, SetterName(option)) <==> HasMethod(methods, "set" + option)
  {
    LowerAppend("set", Ucfirst(option));
    LowerAppend("set", option);
    LowerUcfirst(option);
    assert Lower(SetterName(option)) == Lower("set" + option);
  }
}
