/** `impl`: the registration protocol. Will-register hooks run in plugin
    order, the builder's scalar settings are captured, the block shape and
    the generator are installed under the block's name, and did-register
    hooks run in the same order. The installed entries keep the builder's
    own row list rather than a copy of it, so rows a did hook adds reach
    them too. Plugins keep their own state `S` (the toolbox plugin keeps
    its block store there). */
module Registration {
  import opened Wrappers
  import opened Shared
  import opened BlockBuilder
  import opened BlockInit
  import opened CodeGen

  /** A plugin and its two optional hooks. Both receive the builder itself
      and may call its fluent operations. */
  datatype Plugin<!S> = Plugin(
    name: string,
    willRegister: Option<(Builder, S) -> (Builder, S)>,
    didRegister: Option<(Builder, S) -> (Builder, S)>)

  /** The host's two registries: block shapes and code generators. */
  datatype Registry = Registry(blocks: map<string, InitPlan>, generators: map<string, GeneratorDef>)

  /** One step of registration, for the order in which things happen. */
  datatype Step =
    | WillRegister(plugin: nat)
    | TakeSnapshot
    | InstallShape(name: string)
    | InstallGenerator(name: string)
    | DidRegister(plugin: nat)
  {
    predicate IsHook() {
      WillRegister? || DidRegister?
    }
  }

  /** Whether plugin `p` has the will (or did) hook. */
  predicate Hooked<S>(p: Plugin<S>, will: bool)
  {
    if will then p.willRegister.Some? else p.didRegister.Some?
  }

  /** `steps` calls, in increasing plugin order, exactly the hooks of the
      kind `will` among the first `n` plugins. */
  ghost predicate HookCallsBelow<S>(steps: seq<Step>, plugins: seq<Plugin<S>>, will: bool, n: nat)
    requires n <= |plugins|
  {
    && (forall j :: 0 <= j < |steps| ==>
          && (if will then steps[j].WillRegister? else steps[j].DidRegister?)
          && steps[j].plugin < n && Hooked(plugins[steps[j].plugin], will))
    && (forall j, k :: 0 <= j < k < |steps| && steps[j].IsHook() && steps[k].IsHook() ==> steps[j].plugin < steps[k].plugin)
    && (forall i :: 0 <= i < n && Hooked(plugins[i], will) ==>
          exists j :: 0 <= j < |steps| && steps[j].IsHook() && steps[j].plugin == i)
  }

  /** `steps` calls every hook of kind `will` once, in plugin-list order. */
  ghost predicate HookCalls<S>(steps: seq<Step>, plugins: seq<Plugin<S>>, will: bool)
  {
    HookCallsBelow(steps, plugins, will, |plugins|)
  }

  /** Builder and plugin state after the will hooks of `plugins`, in order. */
  function RunWill<S>(plugins: seq<Plugin<S>>, b: Builder, s: S): (Builder, S)
    decreases |plugins|
  {
    if |plugins| == 0 then (b, s)
    else
      var (b', s') := RunWill(plugins[..|plugins| - 1], b, s);
      var last := plugins[|plugins| - 1];
      if last.willRegister.Some? then last.willRegister.value(b', s') else (b', s')
  }

  /** Builder and plugin state after the did hooks of `plugins`, in order. */
  function RunDid<S>(plugins: seq<Plugin<S>>, b: Builder, s: S): (Builder, S)
    decreases |plugins|
  {
    if |plugins| == 0 then (b, s)
    else
      var (b', s') := RunDid(plugins[..|plugins| - 1], b, s);
      var last := plugins[|plugins| - 1];
      if last.didRegister.Some? then last.didRegister.value(b', s') else (b', s')
  }

  /** Running the hooks of two plugin lists one after the other is running
      those of the joined list: hooks compose in list order. */
  lemma {:induction false} RunWillConcat<S>(p1: seq<Plugin<S>>, p2: seq<Plugin<S>>, b: Builder, s: S)
    ensures RunWill(p1 + p2, b, s) == RunWill(p2, RunWill(p1, b, s).0, RunWill(p1, b, s).1)
    decreases |p2|
  {
    if |p2| == 0 {
      assert p1 + p2 == p1;
    } else {
      var p2' := p2[..|p2| - 1];
      assert (p1 + p2)[..|p1 + p2| - 1] == p1 + p2';
      assert (p1 + p2)[|p1 + p2| - 1] == p2[|p2| - 1];
      RunWillConcat(p1, p2', b, s);
    }
  }

  /** The two host entries for `name`, written together; every other name
      keeps its entries. */
  function Install(reg: Registry, name: string, snap: Snapshot, impl: ImplFn): (r: Registry)
    ensures r.blocks.Keys == reg.blocks.Keys + {name}
    ensures r.generators.Keys == reg.generators.Keys + {name}
    ensures r.blocks[name] == Init(snap)
    ensures r.generators[name] == GeneratorDef(snap.fields, snap.output, impl)
    ensures forall n :: n in reg.blocks && n != name ==> r.blocks[n] == reg.blocks[n]
    ensures forall n :: n in reg.generators && n != name ==> r.generators[n] == reg.generators[n]
  {
    Registry(reg.blocks[name := Init(snap)], reg.generators[name := GeneratorDef(snap.fields, snap.output, impl)])
  }

  /** Registering a name again supersedes the first registration entirely. */
  lemma ReinstallSupersedes(reg: Registry, name: string, s1: Snapshot, i1: ImplFn, s2: Snapshot, i2: ImplFn)
    ensures Install(Install(reg, name, s1, i1), name, s2, i2) == Install(reg, name, s2, i2)
  {
  }

  /** One more plugin considered: its hook, if it has one of this kind, is
      the next call. */
  lemma HookCallsStep<S>(steps: seq<Step>, plugins: seq<Plugin<S>>, will: bool, i: nat)
    requires i < |plugins| && HookCallsBelow(steps, plugins, will, i)
    ensures Hooked(plugins[i], will) ==>
      HookCallsBelow(steps + [if will then WillRegister(i) else DidRegister(i)], plugins, will, i + 1)
    ensures !Hooked(plugins[i], will) ==> HookCallsBelow(steps, plugins, will, i + 1)
  {
    var steps' := steps + [if will then WillRegister(i) else DidRegister(i)];
    assert forall j :: 0 <= j < |steps| ==> steps'[j] == steps[j];
    assert steps'[|steps|].plugin == i;
  }

  /** The will-register loop of `impl`. */
  method RunWillHooks<S>(plugins: seq<Plugin<S>>, b: Builder, s: S) returns (b': Builder, s': S, steps: seq<Step>)
    ensures (b', s') == RunWill(plugins, b, s)
    ensures HookCalls(steps, plugins, true)
  {
    b', s' := b, s;
    steps := [];
    for i := 0 to |plugins|
      invariant (b', s') == RunWill(plugins[..i], b, s)
      invariant HookCallsBelow(steps, plugins, true, i)
    {
      assert plugins[..i + 1][..i] == plugins[..i];
      HookCallsStep(steps, plugins, true, i);
      if plugins[i].willRegister.Some? {
        var next := plugins[i].willRegister.value(b', s');
        b', s' := next.0, next.1;
        steps := steps + [WillRegister(i)];
      }
    }
    assert plugins[..|plugins|] == plugins;
  }

  /** The did-register loop of `impl`. */
  method RunDidHooks<S>(plugins: seq<Plugin<S>>, b: Builder, s: S) returns (b': Builder, s': S, steps: seq<Step>)
    ensures (b', s') == RunDid(plugins, b, s)
    ensures HookCalls(steps, plugins, false)
  {
    b', s' := b, s;
    steps := [];
    for i := 0 to |plugins|
      invariant (b', s') == RunDid(plugins[..i], b, s)
      invariant HookCallsBelow(steps, plugins, false, i)
    {
      assert plugins[..i + 1][..i] == plugins[..i];
      HookCallsStep(steps, plugins, false, i);
      if plugins[i].didRegister.Some? {
        var next := plugins[i].didRegister.value(b', s');
        b', s' := next.0, next.1;
        steps := steps + [DidRegister(i)];
      }
    }
    assert plugins[..|plugins|] == plugins;
  }

  /** `impl(builder)`: registers the block and reports the order of steps.
      The entries are installed under the name and with the scalar
      settings the will hooks left; their rows are the builder's row list
      as the did hooks leave it, because the host entries share that list.
      The did hooks see the builder, never the registry. `trace` is the
      order in which the source's statements run; it holds by construction
      and is there so that the hook calls can be read against it. */
  method Impl<S>(b: Builder, impl: ImplFn, plugins: seq<Plugin<S>>, reg: Registry, s: S)
    returns (reg': Registry, s': S, willSteps: seq<Step>, didSteps: seq<Step>, trace: seq<Step>)
    ensures var (b1, s1) := RunWill(plugins, b, s);
            var (b2, s2) := RunDid(plugins, b1, s1);
            && reg' == Install(reg, b1.name, Capture(b1).(fields := b2.fields), impl)
            && s' == s2
            && trace == willSteps + [TakeSnapshot, InstallShape(b1.name), InstallGenerator(b1.name)] + didSteps
    ensures HookCalls(willSteps, plugins, true)
    ensures HookCalls(didSteps, plugins, false)
  {
    var cur, st;
    cur, st, willSteps := RunWillHooks(plugins, b, s);
    var snap := Capture(cur);
    var after;
    after, s', didSteps := RunDidHooks(plugins, cur, st);
    // The installed entries hold the live row list, not a copy of it.
    reg' := Install(reg, cur.name, snap.(fields := after.fields), impl);
    trace := willSteps + [TakeSnapshot, InstallShape(cur.name), InstallGenerator(cur.name)] + didSteps;
  }

  /** A did hook that adds a statement row (and does nothing else) changes
      what was installed: the shape gains the statement input and the
      generator's rows gain the row, while the scalar settings stay those
      captured before the did hooks ran. */
  lemma DidHookRowReachesEntries<S>(p: Plugin<S>, b: Builder, s: S, reg: Registry, impl: ImplFn, key: string, allow: string)
    requires p.willRegister.None? && p.didRegister.Some?
    requires forall b', s' :: p.didRegister.value(b', s') == (AddStmt(b', key, allow), s')
    ensures var (b1, s1) := RunWill([p], b, s);
            var (b2, s2) := RunDid([p], b1, s1);
            var r := Install(reg, b1.name, Capture(b1).(fields := b2.fields), impl);
            && b1 == b
            && r.blocks[b1.name].inputs == Init(Capture(b)).inputs + [StatementInput(key, CheckOf(allow))]
            && r.blocks[b1.name].colour == b.colour
            && r.generators[b1.name].fields == b.fields + [Stmt(key, allow)]
  {
    var ps := [p];
    assert ps[..0] == [];
    assert RunWill(ps, b, s) == (b, s);
    assert RunDid(ps, b, s) == (AddStmt(b, key, allow), s);
    var b2 := AddStmt(b, key, allow);
    assert Capture(b).(fields := b2.fields) == Capture(b2);
    StmtYieldsStatementInput(b, key, allow);
    InitAppend(b, Stmt(key, allow));
  }
}
