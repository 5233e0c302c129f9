/**
 * The provider registry of MapService: a lazily resolved, process-wide map
 * backend held in three static fields, plus the helpers every backend shares.
 *
 * The static fields are modelled twice over, as is usual for state that the
 * Java class updates in place: `Statics` and the step functions (`GetStep`,
 * `UnloadStep`, ...) are the specification, and the class `Registry` holds the
 * fields themselves and updates them step by step, each method proved equal to
 * its step function. Calls into code outside the registry (the service factory
 * and a backend's `cleanup`) are recorded as `Hook`s.
 */
module MapService {
  import opened Wrappers

  /** The identity of one MapService instance (a BlueMap or a Dynmap backend). */
  datatype Provider = Provider(id: nat)

  /** The two configuration flags the registry reads. */
  datatype Config = Config(enabled: bool, debug: bool)

  /**
   * The service factory: given the debug flag, it tries the candidate backends
   * and yields the first that could be created, or nothing.
   */
  type Factory = bool -> Option<Provider>

  /** A call from the registry into code it does not own. */
  datatype Hook = RunFactory(debug: bool) | RunCleanup(provider: Provider)

  /** The static fields `instance`, `instanceInit` and `instanceValid`. */
  datatype Statics = Statics(instance: Option<Provider>, instanceInit: bool, instanceValid: bool)

  /** The fields as the class loader leaves them. */
  const Initial := Statics(None, false, false)

  /** The fields after `unload`. */
  const Released := Statics(None, true, false)

  /**
   * The invariant every operation keeps: the instance is valid exactly when
   * there is one, and nothing is held before the first resolution.
   */
  predicate Consistent(s: Statics) {
    && (s.instanceValid <==> s.instance.Some?)
    && (!s.instanceInit ==> s.instance.None?)
  }

  /** The fields after an operation, what it returned and the hooks it ran, in order. */
  datatype Step<T> = Step(statics: Statics, value: T, hooks: seq<Hook>)

  /** Thrown by `Objects.requireNonNull`. */
  datatype NullPointerException = NullPointerException

  /** `get`: resolve once, then answer from the cache. */
  function GetStep(s: Statics, config: Config, factory: Factory): (r: Step<Option<Provider>>)
    ensures r.statics.instanceInit
    // once resolved: the cached instance, with config and factory left alone
    ensures s.instanceInit ==> r == Step(s, s.instance, [])
    // integration switched off: nothing, marked invalid, without the factory
    ensures !s.instanceInit && !config.enabled ==>
              r.value.None? && !r.statics.instanceValid && r.hooks == []
    // discovery: the factory runs once and its outcome is cached and returned
    ensures !s.instanceInit && config.enabled ==>
              && r.hooks == [RunFactory(config.debug)]
              && r.value == factory(config.debug)
              && r.statics == Statics(r.value, true, r.value.Some?)
    ensures Consistent(s) ==> Consistent(r.statics) && r.value == r.statics.instance
  {
    if s.instanceInit then
      Step(s, s.instance, [])
    else if !config.enabled then
      Step(s.(instanceValid := false, instanceInit := true), None, [])
    else
      var found := factory(config.debug);
      Step(Statics(found, true, found.Some?), found, [RunFactory(config.debug)])
  }

  /** `getNonNull`: resolve if needed, then insist on an instance. */
  function GetNonNullStep(s: Statics, config: Config, factory: Factory): (r: Step<Result<Provider, NullPointerException>>)
    requires Consistent(s)
    ensures var g := GetStep(s, config, factory);
      && r.statics == g.statics && r.hooks == g.hooks
      && (r.value.Failure? <==> g.value.None?)
      && (r.value.Success? ==> g.value == Some(r.value.value))
  {
    var resolved := if !s.instanceInit then GetStep(s, config, factory) else Step(s, s.instance, []);
    var instance := resolved.statics.instance;
    Step(resolved.statics,
         if instance.None? then Failure(NullPointerException) else Success(instance.value),
         resolved.hooks)
  }

  /** `isAvailable`: resolve if needed, then report `instanceValid`. */
  function IsAvailableStep(s: Statics, config: Config, factory: Factory): (r: Step<bool>)
    requires Consistent(s)
    ensures var g := GetStep(s, config, factory);
      r.statics == g.statics && r.hooks == g.hooks && (r.value <==> g.value.Some?)
  {
    var resolved := if !s.instanceInit then GetStep(s, config, factory) else Step(s, s.instance, []);
    Step(resolved.statics, resolved.statics.instanceValid, resolved.hooks)
  }

  /** `unload`: drop the instance, mark the registry resolved, and clean up a valid instance. */
  function UnloadStep(s: Statics): (r: Step<()>)
    requires Consistent(s)
    ensures r.statics == Released
    ensures s.instanceValid ==> r.hooks == [RunCleanup(s.instance.value)]
    ensures !s.instanceValid ==> r.hooks == []
  {
    var oldInstance := s.instance;
    var oldValid := s.instanceValid;
    Step(Statics(None, true, false), (), if oldValid then [RunCleanup(oldInstance.value)] else [])
  }

  /** One call of the registry's public interface, with the configuration it sees. */
  datatype Call =
    | GetCall(config: Config, factory: Factory)
    | GetNonNullCall(config: Config, factory: Factory)
    | IsAvailableCall(config: Config, factory: Factory)
    | UnloadCall

  /** What one call answered. */
  datatype Reply =
    | Got(provider: Option<Provider>)
    | NonNull(result: Result<Provider, NullPointerException>)
    | Available(available: bool)
    | Unloaded

  /** The answer a call gives when no backend is active. */
  predicate Unavailable(reply: Reply) {
    match reply
    case Got(p) => p.None?
    case NonNull(res) => res.Failure?
    case Available(b) => !b
    case Unloaded => true
  }

  function Apply(s: Statics, call: Call): (r: Step<Reply>)
    requires Consistent(s)
    ensures Consistent(r.statics) && r.statics.instanceInit
    ensures FactoryRuns(r.hooks) <= if s.instanceInit then 0 else 1
  {
    match call
    case GetCall(c, f) => var g := GetStep(s, c, f); Step(g.statics, Got(g.value), g.hooks)
    case GetNonNullCall(c, f) => var g := GetNonNullStep(s, c, f); Step(g.statics, NonNull(g.value), g.hooks)
    case IsAvailableCall(c, f) => var g := IsAvailableStep(s, c, f); Step(g.statics, Available(g.value), g.hooks)
    case UnloadCall => var g := UnloadStep(s); Step(g.statics, Unloaded, g.hooks)
  }

  /** A sequence of calls made one after another: the final fields, every reply and every hook run. */
  function Run(s: Statics, calls: seq<Call>): (r: Step<seq<Reply>>)
    requires Consistent(s)
    ensures Consistent(r.statics) && |r.value| == |calls|
    ensures calls != [] ==> r.statics.instanceInit
    decreases |calls|
  {
    if calls == [] then Step(s, [], [])
    else
      var first := Apply(s, calls[0]);
      var rest := Run(first.statics, calls[1..]);
      Step(rest.statics, [first.value] + rest.value, first.hooks + rest.hooks)
  }

  /** How many times the factory ran. */
  function FactoryRuns(hooks: seq<Hook>): nat {
    if hooks == [] then 0
    else (if hooks[0].RunFactory? then 1 else 0) + FactoryRuns(hooks[1..])
  }

  lemma {:induction false} FactoryRunsAppend(a: seq<Hook>, b: seq<Hook>)
    ensures FactoryRuns(a + b) == FactoryRuns(a) + FactoryRuns(b)
  {
    if a != [] {
      assert (a + b)[1..] == a[1..] + b;
      FactoryRunsAppend(a[1..], b);
    } else {
      assert a + b == b;
    }
  }

  /**
   * Discovery runs at most once over any sequence of calls, and never once the
   * registry is resolved. The calls follow one another; MapService has no lock,
   * so nothing is claimed for calls that overlap.
   */
  lemma {:induction false} DiscoveryAtMostOnce(s: Statics, calls: seq<Call>)
    requires Consistent(s)
    ensures FactoryRuns(Run(s, calls).hooks) <= if s.instanceInit then 0 else 1
    decreases |calls|
  {
    if calls != [] {
      var first := Apply(s, calls[0]);
      DiscoveryAtMostOnce(first.statics, calls[1..]);
      FactoryRunsAppend(first.hooks, Run(first.statics, calls[1..]).hooks);
    }
  }

  /** From the released state every call answers "unavailable" and runs no hook. */
  lemma {:induction false} ReleasedIsFinal(calls: seq<Call>)
    ensures var r := Run(Released, calls);
      && r.statics == Released && r.hooks == []
      && forall i :: 0 <= i < |r.value| ==> Unavailable(r.value[i])
    decreases |calls|
  {
    if calls != [] {
      ReleasedIsFinal(calls[1..]);
      var rest := Run(Released, calls[1..]);
      assert Run(Released, calls).value == [Apply(Released, calls[0]).value] + rest.value;
    }
  }

  /**
   * After `unload` the registry never resolves again: whatever the configuration
   * and the factory, every later `get` answers null without running discovery.
   */
  lemma {:induction false} UnloadIsFinal(s: Statics, calls: seq<Call>)
    requires Consistent(s)
    ensures var r := Run(UnloadStep(s).statics, calls);
      && r.hooks == []
      && forall i :: 0 <= i < |r.value| ==> Unavailable(r.value[i])
  {
    ReleasedIsFinal(calls);
  }

  /** The static state of MapService, updated in place. */
  class Registry {
    var instance: Option<Provider>
    var instanceInit: bool
    var instanceValid: bool
    /** The hooks run so far, oldest first. */
    ghost var hooks: seq<Hook>

    function Fields(): Statics
      reads this
    {
      Statics(instance, instanceInit, instanceValid)
    }

    ghost predicate Valid()
      reads this
    {
      Consistent(Fields())
    }

    constructor ()
      ensures Valid() && Fields() == Initial && hooks == []
    {
      instance := None;
      instanceInit := false;
      instanceValid := false;
      hooks := [];
    }

    method Get(config: Config, factory: Factory) returns (r: Option<Provider>)
      requires Valid()
      modifies this
      ensures Valid()
      ensures var step := GetStep(old(Fields()), config, factory);
        Fields() == step.statics && r == step.value && hooks == old(hooks) + step.hooks
    {
      if instanceInit {
        return instance;
      }
      if !config.enabled {
        instanceValid := false;
        instanceInit := true;
        return None;
      }
      instance := factory(config.debug);
      hooks := hooks + [RunFactory(config.debug)];
      instanceValid := instance.Some?;
      instanceInit := true;
      r := instance;
    }

    method GetNonNull(config: Config, factory: Factory) returns (r: Result<Provider, NullPointerException>)
      requires Valid()
      modifies this
      ensures Valid()
      ensures var step := GetNonNullStep(old(Fields()), config, factory);
        Fields() == step.statics && r == step.value && hooks == old(hooks) + step.hooks
    {
      if !instanceInit {
        var ignored := Get(config, factory);
      }
      if instance.None? {
        return Failure(NullPointerException);
      }
      r := Success(instance.value);
    }

    method IsAvailable(config: Config, factory: Factory) returns (r: bool)
      requires Valid()
      modifies this
      ensures Valid()
      ensures var step := IsAvailableStep(old(Fields()), config, factory);
        Fields() == step.statics && r == step.value && hooks == old(hooks) + step.hooks
    {
      if !instanceInit {
        var ignored := Get(config, factory);
      }
      r := instanceValid;
    }

    method Unload()
      requires Valid()
      modifies this
      ensures Valid()
      ensures var step := UnloadStep(old(Fields()));
        Fields() == step.statics && hooks == old(hooks) + step.hooks
    {
      var oldInstance := instance;
      var oldValid := instanceValid;
      instanceValid := false;
      instance := None;
      instanceInit := true;
      if oldValid {
        hooks := hooks + [RunCleanup(oldInstance.value)];
      }
    }
  }

  /** A `Consumer` callback, recording every value it is given. */
  class Consumer<T> {
    var accepted: seq<T>

    constructor ()
      ensures accepted == []
    {
      accepted := [];
    }

    method Accept(v: T)
      modifies this
      ensures accepted == old(accepted) + [v]
    {
      accepted := accepted + [v];
    }
  }

  /**
   * The default `getMarkerAsync`: the callback receives exactly one value, the
   * marker `getMarker` gives for the claim, before the call returns.
   */
  method GetMarkerAsync<C, M>(claim: C, getMarker: C -> M, callback: Consumer<M>)
    modifies callback
    ensures callback.accepted == old(callback.accepted) + [getMarker(claim)]
  {
    callback.Accept(getMarker(claim));
  }

  /** A server plugin as the plugin manager reports it. */
  datatype Plugin = Plugin(name: string, enabled: bool)

  /** The reasons `findPlugin` throws a MapServiceInitException. */
  datatype InitException = PluginNotFound(name: string) | PluginNotEnabled(name: string)

  function Message(e: InitException): string {
    match e
    case PluginNotFound(n) => "Failed to find plugin \"" + n + "\""
    case PluginNotEnabled(n) => "Plugin \"" + n + "\" is not enabled"
  }

  /**
   * `findPlugin`: the plugin registered under `name`, provided it is enabled.
   * `plugins` is the plugin manager's table, keyed by plugin name.
   */
  function FindPlugin(plugins: map<string, Plugin>, name: string): (r: Result<Plugin, InitException>)
    ensures r.Success? <==> name in plugins && plugins[name].enabled
    ensures r.Success? ==> r.value == plugins[name]
    ensures r.Failure? ==> r.error.name == name
    ensures r.Failure? && r.error.PluginNotFound? <==> name !in plugins
    ensures r.Failure? && r.error.PluginNotEnabled? <==> name in plugins && !plugins[name].enabled
    ensures name !in plugins ==> Message(r.error) == "Failed to find plugin \"" + name + "\""
    ensures name in plugins && !plugins[name].enabled ==>
              Message(r.error) == "Plugin \"" + name + "\" is not enabled"
  {
    if name !in plugins then Failure(PluginNotFound(name))
    else
      var plug := plugins[name];
      if !plug.enabled then Failure(PluginNotEnabled(name))
      else Success(plug)
  }
}
