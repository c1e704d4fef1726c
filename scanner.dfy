/**
 * The scanner's own machine: a fixed configuration of the engine with the
 * states `stopped`, `started`, `active` and `inactive`, one conditional event
 * (`activate`) and three user hooks, and the `Scanner` object that builds a
 * fresh machine on `start`, fires `stop` only when it is legal, and lets the
 * engine run the chains it started.
 */
module ScannerMachine {

  import opened Wrappers
  import opened FsmTables
  import opened FsmRuntime
  import opened FsmTableProps
  import opened FsmRuntimeProps
  import opened FsmExclusion

  // ---------------------------------------------------------------------------
  // The configuration
  // ---------------------------------------------------------------------------

  const StartEvent: EventSpec := EventSpec("start", OneState("stopped"), ToState("started"), false)
  const StopEvent: EventSpec := EventSpec("stop", StateList(["started", "active", "inactive"]), ToState("stopped"), false)
  const ActivateEvent: EventSpec :=
    EventSpec("activate", StateList(["started", "inactive"]), ToList(["active", "inactive"]), true)
  const DeactivateEvent: EventSpec := EventSpec("deactivate", StateList(["started", "active"]), ToState("inactive"), false)

  const Config: seq<EventSpec> := [StartEvent, StopEvent, ActivateEvent, DeactivateEvent]

  /** The candidates of `activate`, in the order the condition's result is resolved against. */
  const Candidates: seq<string> := ["active", "inactive"]

  /** The callbacks the scanner passes: enabling and disabling the scan, and the automatic `activate`. */
  const Hooks: set<string> := {"onenteractive", "onleaveactive", "onenteredstarted"}

  // ---------------------------------------------------------------------------
  // The tables init builds, one configured event at a time, from any start
  // ---------------------------------------------------------------------------

  function AfterStart(t0: Tables): Tables
  {
    PlainStepSpec(t0, StartEvent, "", "");
    InitOne(t0, StartEvent).value
  }

  function AfterStop(t0: Tables): Tables
  {
    PlainStepSpec(AfterStart(t0), StopEvent, "", "");
    InitOne(AfterStart(t0), StopEvent).value
  }

  function AfterActivate(t0: Tables): Tables
  {
    ConditionalStepRow(AfterStop(t0), ActivateEvent, "", "");
    InitOne(AfterStop(t0), ActivateEvent).value
  }

  function Compiled(t0: Tables): Tables
  {
    PlainStepSpec(AfterActivate(t0), DeactivateEvent, "", "");
    InitOne(AfterActivate(t0), DeactivateEvent).value
  }

  /** The tables of the machine `_createStateMachine` returns. */
  function ScannerTables(): Tables
  {
    Compiled(Empty(Hooks))
  }

  /** That machine: initial `stopped`, no final state. */
  function ScannerDef(instance: nat): Def
  {
    Def(ScannerTables(), "stopped", NoFinal, instance)
  }

  /** One more configured event: init's loop carries on from the tables built so far. */
  lemma StartStep(t0: Tables)
    ensures InitOne(t0, Config[0]) == Success(AfterStart(t0))
  {
    PlainStepSpec(t0, StartEvent, "", "");
  }

  lemma StopStep(t0: Tables)
    ensures InitOne(AfterStart(t0), Config[1]) == Success(AfterStop(t0))
  {
    PlainStepSpec(AfterStart(t0), StopEvent, "", "");
  }

  lemma ActivateStep(t0: Tables)
    ensures InitOne(AfterStop(t0), Config[2]) == Success(AfterActivate(t0))
  {
    ConditionalStepRow(AfterStop(t0), ActivateEvent, "", "");
  }

  lemma DeactivateStep(t0: Tables)
    ensures InitOne(AfterActivate(t0), Config[3]) == Success(Compiled(t0))
  {
    PlainStepSpec(AfterActivate(t0), DeactivateEvent, "", "");
  }

  lemma InitOneEvent(t0: Tables)
    ensures Init(t0, Config[..1]) == Success(AfterStart(t0))
  {
    assert Init(t0, Config[..0]) == Success(t0);
    StartStep(t0);
    InitStep(t0, Config, 0);
  }

  lemma InitTwo(t0: Tables)
    ensures Init(t0, Config[..2]) == Success(AfterStop(t0))
  {
    InitOneEvent(t0);
    StopStep(t0);
    InitStep(t0, Config, 1);
  }

  lemma InitThree(t0: Tables)
    ensures Init(t0, Config[..3]) == Success(AfterActivate(t0))
  {
    InitTwo(t0);
    ActivateStep(t0);
    InitStep(t0, Config, 2);
  }

  lemma InitFour(t0: Tables)
    ensures Init(t0, Config[..4]) == Success(Compiled(t0))
  {
    InitThree(t0);
    DeactivateStep(t0);
    InitStep(t0, Config, 3);
  }

  lemma InitAll(t0: Tables)
    ensures Init(t0, Config) == Success(Compiled(t0))
  {
    InitFour(t0);
    ConfigWhole();
  }

  lemma ConfigWhole()
    ensures Config[..4] == Config
  {
  }

  /** The scanner's configuration compiles, and the tables are the ones built event by event above. */
  lemma BuildsScannerTables()
    ensures Build(Config, Hooks) == Success(ScannerTables())
  {
    InitAll(Empty(Hooks));
  }

  // ---------------------------------------------------------------------------
  // Which events are legal where
  // ---------------------------------------------------------------------------

  /** An event whose origins are a list without the empty name, with a named target or a conditional list of them. */
  predicate Listed(e: EventSpec)
  {
    e.from.StateList? && "" !in e.from.states &&
    if e.to.ToList? then IsConditional(e) else e.to.ToState? && e.to.state != ""
  }

  /** The origins of the listed events, as sets. */
  lemma OriginSets(s: string)
    ensures s in StopEvent.from.states <==> s in {"started", "active", "inactive"}
    ensures s in ActivateEvent.from.states <==> s in {"started", "inactive"}
    ensures s in DeactivateEvent.from.states <==> s in {"started", "active"}
  {
  }

  lemma ConfigListed()
    ensures Listed(StopEvent) && Listed(ActivateEvent) && Listed(DeactivateEvent)
    ensures "started" in ActivateEvent.from.states && "inactive" in ActivateEvent.from.states
  {
  }

  /**
   * The row a configured event writes into tables that had none for it: a
   * plain event maps each origin to its target, a conditional one each origin
   * to that origin's choice pseudo-state.
   */
  lemma NewRow(t: Tables, e: EventSpec, s: string)
    requires Lookup(t.events, e.name, s) == None
    requires Listed(e)
    ensures InitOne(t, e).Success?
    ensures Lookup(InitOne(t, e).value.events, e.name, s)
            == if s !in e.from.states then None
               else if e.to.ToList? then Some(PseudoState(s, e.name))
               else Some(e.to.state)
  {
    if e.to.ToList? {
      ConditionalStepRow(t, e, e.name, s);
    } else {
      PlainStepSpec(t, e, e.name, s);
    }
  }

  // One lemma per row and build step: the row of each event after each step.

  lemma StartRow1(t0: Tables, s: string)
    requires t0.events == map[]
    ensures Lookup(AfterStart(t0).events, "start", s) == if s == "stopped" then Some("started") else None
  {
    PlainStepSpec(t0, StartEvent, "start", s);
  }

  lemma StartRow2(t0: Tables, s: string)
    requires t0.events == map[]
    ensures Lookup(AfterStop(t0).events, "start", s) == if s == "stopped" then Some("started") else None
  {
    StartRow1(t0, s);
    PlainStepSpec(AfterStart(t0), StopEvent, "start", s);
  }

  lemma StartRow3(t0: Tables, s: string)
    requires t0.events == map[]
    ensures Lookup(AfterActivate(t0).events, "start", s) == if s == "stopped" then Some("started") else None
  {
    StartRow2(t0, s);
    ConditionalStepRow(AfterStop(t0), ActivateEvent, "start", s);
  }

  lemma StartRow(t0: Tables, s: string)
    requires t0.events == map[]
    ensures Lookup(Compiled(t0).events, "start", s) == if s == "stopped" then Some("started") else None
  {
    StartRow3(t0, s);
    PlainStepSpec(AfterActivate(t0), DeactivateEvent, "start", s);
  }

  lemma StopRow1(t0: Tables, s: string)
    requires t0.events == map[]
    ensures Lookup(AfterStart(t0).events, "stop", s) == None
  {
    PlainStepSpec(t0, StartEvent, "stop", s);
  }

  lemma StopRow2(t0: Tables, s: string)
    requires t0.events == map[]
    ensures Lookup(AfterStop(t0).events, "stop", s) == if s in StopEvent.from.states then Some("stopped") else None
  {
    StopRow1(t0, s);
    ConfigListed();
    NewRow(AfterStart(t0), StopEvent, s);
  }

  lemma StopRow3(t0: Tables, s: string)
    requires t0.events == map[]
    ensures Lookup(AfterActivate(t0).events, "stop", s) == if s in StopEvent.from.states then Some("stopped") else None
  {
    StopRow2(t0, s);
    ConditionalStepRow(AfterStop(t0), ActivateEvent, "stop", s);
  }

  lemma StopRow(t0: Tables, s: string)
    requires t0.events == map[]
    ensures Lookup(Compiled(t0).events, "stop", s) == if s in StopEvent.from.states then Some("stopped") else None
  {
    StopRow3(t0, s);
    PlainStepSpec(AfterActivate(t0), DeactivateEvent, "stop", s);
  }

  lemma ActivateRow1(t0: Tables, s: string)
    requires t0.events == map[]
    ensures Lookup(AfterStart(t0).events, "activate", s) == None
  {
    PlainStepSpec(t0, StartEvent, "activate", s);
  }

  lemma ActivateRow2(t0: Tables, s: string)
    requires t0.events == map[]
    ensures Lookup(AfterStop(t0).events, "activate", s) == None
  {
    ActivateRow1(t0, s);
    PlainStepSpec(AfterStart(t0), StopEvent, "activate", s);
  }

  lemma ActivateRow3(t0: Tables, s: string)
    requires t0.events == map[]
    ensures Lookup(AfterActivate(t0).events, "activate", s) == if s in ActivateEvent.from.states then Some(PseudoState(s, "activate")) else None
  {
    ActivateRow2(t0, s);
    ConfigListed();
    NewRow(AfterStop(t0), ActivateEvent, s);
  }

  lemma ActivateRow(t0: Tables, s: string)
    requires t0.events == map[]
    ensures Lookup(Compiled(t0).events, "activate", s) == if s in ActivateEvent.from.states then Some(PseudoState(s, "activate")) else None
  {
    ActivateRow3(t0, s);
    PlainStepSpec(AfterActivate(t0), DeactivateEvent, "activate", s);
  }

  lemma DeactivateRow1(t0: Tables, s: string)
    requires t0.events == map[]
    ensures Lookup(AfterStart(t0).events, "deactivate", s) == None
  {
    PlainStepSpec(t0, StartEvent, "deactivate", s);
  }

  lemma DeactivateRow2(t0: Tables, s: string)
    requires t0.events == map[]
    ensures Lookup(AfterStop(t0).events, "deactivate", s) == None
  {
    DeactivateRow1(t0, s);
    PlainStepSpec(AfterStart(t0), StopEvent, "deactivate", s);
  }

  lemma DeactivateRow3(t0: Tables, s: string)
    requires t0.events == map[]
    ensures Lookup(AfterActivate(t0).events, "deactivate", s) == None
  {
    DeactivateRow2(t0, s);
    ConditionalStepRow(AfterStop(t0), ActivateEvent, "deactivate", s);
  }

  lemma DeactivateRow(t0: Tables, s: string)
    requires t0.events == map[]
    ensures Lookup(Compiled(t0).events, "deactivate", s) == if s in DeactivateEvent.from.states then Some("inactive") else None
  {
    DeactivateRow3(t0, s);
    ConfigListed();
    NewRow(AfterActivate(t0), DeactivateEvent, s);
  }

  /** `start` is legal only from `stopped`, and leads to `started`. */
  lemma StartLegal(s: string)
    ensures Lookup(ScannerTables().events, "start", s) == if s == "stopped" then Some("started") else None
    ensures Can(ScannerTables(), s, "start") <==> s == "stopped"
  {
    StartRow(Empty(Hooks), s);
  }

  /** `stop` is legal from `started`, `active` and `inactive`, never from `stopped`, and leads to `stopped`. */
  lemma StopLegal(s: string)
    ensures Lookup(ScannerTables().events, "stop", s)
            == if s in {"started", "active", "inactive"} then Some("stopped") else None
    ensures Can(ScannerTables(), s, "stop") <==> s in {"started", "active", "inactive"}
  {
    StopRow(Empty(Hooks), s);
    OriginSets(s);
  }

  /** `activate` is legal from `started` and `inactive`, and leads to that origin's choice pseudo-state. */
  lemma ActivateLegal(s: string)
    ensures Lookup(ScannerTables().events, "activate", s)
            == if s in {"started", "inactive"} then Some(PseudoState(s, "activate")) else None
    ensures Can(ScannerTables(), s, "activate") <==> s in {"started", "inactive"}
  {
    ActivateRow(Empty(Hooks), s);
    OriginSets(s);
  }

  /** `deactivate` is legal from `started` and `active`, and leads to `inactive`. */
  lemma DeactivateLegal(s: string)
    ensures Lookup(ScannerTables().events, "deactivate", s)
            == if s in {"started", "active"} then Some("inactive") else None
    ensures Can(ScannerTables(), s, "deactivate") <==> s in {"started", "active"}
  {
    DeactivateRow(Empty(Hooks), s);
    OriginSets(s);
  }

  // ---------------------------------------------------------------------------
  // The choice behind `activate`
  // ---------------------------------------------------------------------------

  lemma ActivateChoiceBuilt(t0: Tables, f: string)
    requires f in ActivateEvent.from.states
    ensures ChoiceRegistered(AfterActivate(t0), "activate", f, Candidates)
  {
    ConditionalStepChoice(AfterStop(t0), ActivateEvent, f);
  }

  lemma ActivateChoiceKept(t0: Tables, f: string)
    requires f in ActivateEvent.from.states
    ensures ChoiceRegistered(Compiled(t0), "activate", f, Candidates)
  {
    ActivateChoiceBuilt(t0, f);
    PlainStepKeepsChoice(AfterActivate(t0), DeactivateEvent, "activate", f, Candidates);
  }

  /** From `started` and from `inactive`, `activate` goes through a registered choice over `active` and `inactive`. */
  lemma ActivateChoices(f: string)
    requires f in {"started", "inactive"}
    ensures ChoiceRegistered(ScannerTables(), "activate", f, Candidates)
  {
    OriginSets(f);
    ActivateChoiceKept(Empty(Hooks), f);
  }

  /**
   * What `this` is when the condition of `activate` runs: the scanner itself,
   * or the machine's own target object, which has no `backgroundScan`
   * property (so the property reads as `undefined`, which is falsy).
   */
  datatype Receiver = ScannerObject(backgroundScan: bool) | MachineTarget

  function BackgroundScanOf(self: Receiver): bool
  {
    if self.ScannerObject? then self.backgroundScan else false
  }

  /**
   * The condition of `activate`: `active` when the page is visible or the
   * receiver's `backgroundScan` is truthy, `inactive` otherwise.
   */
  function ActivateCondition(visible: bool, self: Receiver): (r: Reply)
    ensures r.Chose? && r.pick.Named? && r.pick.state in Candidates
    ensures r.pick.state == "active" <==> visible || BackgroundScanOf(self)
  {
    Chose(Named(if visible || BackgroundScanOf(self) then "active" else "inactive"))
  }

  /**
   * The condition as the engine runs it: called with the machine's target as
   * `this`, so the scanner's `backgroundScan` never reaches it.
   */
  function ConditionAsCalled(visible: bool, backgroundScan: bool): (r: Reply)
    ensures r.Chose? && r.pick.Named?
  {
    ActivateCondition(visible, MachineTarget)
  }

  /** As called, the condition picks `active` exactly when the page is visible, whatever `backgroundScan` is. */
  lemma ConditionIgnoresBackgroundScan(visible: bool, backgroundScan: bool)
    ensures ConditionAsCalled(visible, backgroundScan).pick.state == "active" <==> visible
  {
  }

  /** A hidden page with background scanning on: the condition as called picks `inactive`, the intended one `active`. */
  lemma BackgroundScanIgnored()
    ensures ConditionAsCalled(false, true) == Chose(Named("inactive"))
    ensures ActivateCondition(false, ScannerObject(true)) == Chose(Named("active"))
  {
  }

  /**
   * With the scanner as receiver, the pick of the condition resolves, from
   * either origin of `activate`, to the pseudo-event leading to `active` when
   * the page is visible or background scanning is on, and to `inactive`
   * otherwise.
   */
  lemma ActivateResolves(f: string, visible: bool, backgroundScan: bool)
    requires f in {"started", "inactive"}
    ensures var choice := Resolve(Candidates, ActivateCondition(visible, ScannerObject(backgroundScan)).pick);
      && choice == Some(if visible || backgroundScan then "active" else "inactive")
      && Lookup(ScannerTables().events, ChoiceEvent("activate", f, choice), PseudoState(f, "activate")) == choice
  {
    var pick := ActivateCondition(visible, ScannerObject(backgroundScan)).pick;
    ActivateChoices(f);
    ChoiceLeadsTo(ScannerTables(), "activate", f, Candidates, pick);
  }

  // ---------------------------------------------------------------------------
  // The user callbacks' replies
  // ---------------------------------------------------------------------------

  /** The first trigger argument, `options.args[0]`: `undefined` when there is none. */
  function FirstArg(args: seq<Value>): (v: Value)
    ensures |args| > 0 ==> v == args[0]
    ensures |args| == 0 ==> v == Undefined
  {
    if |args| > 0 then args[0] else Undefined
  }

  /** `onenteredstarted`: waits for `activate`, passing on the camera the machine was started with. */
  function StartedHook(args: seq<Value>): (r: Reply)
    ensures Fits(UserHook, r)
    ensures r.Await? && r.event == "activate" && r.args == [FirstArg(args)]
  {
    Await("activate", [FirstArg(args)])
  }

  /** The `activate` that `onenteredstarted` waits for is legal in `started`, the state just entered. */
  lemma StartedHookLegal(args: seq<Value>)
    ensures Can(ScannerTables(), "started", StartedHook(args).event)
  {
    ActivateLegal("started");
  }

  /** `onenteractive` resolves once the scan is enabled, or fails with the error enabling it raised. */
  function EnteredActiveHook(enableError: Option<Error>): (r: Reply)
    ensures Fits(UserHook, r)
    ensures r.Throw? <==> enableError.Some?
    ensures r.Done? ==> r.setRes == None
  {
    if enableError.Some? then Throw(enableError.value) else Done(None)
  }

  /** `onleaveactive` disables the scan and resolves without a result. */
  function LeaveActiveHook(): (r: Reply)
    ensures Fits(UserHook, r) && r == Done(None)
  {
    Done(None)
  }

  // ---------------------------------------------------------------------------
  // Whole-machine facts
  // ---------------------------------------------------------------------------

  /** A freshly created scanner machine is in `stopped`, where `start` is always legal. */
  lemma StartAlwaysLegal(instance: nat)
    ensures Initial(ScannerDef(instance)).current == "stopped"
    ensures Can(ScannerDef(instance).t, Initial(ScannerDef(instance)).current, "start")
  {
    StartLegal("stopped");
  }

  /** Every run of the scanner's machine under the corrected semantics keeps transitions mutually exclusive. */
  lemma ScannerExclusive(instance: nat, acts: seq<Action>)
    requires Run(Corrected, ScannerDef(instance), Initial(ScannerDef(instance)), acts).Some?
    ensures Exclusive(Run(Corrected, ScannerDef(instance), Initial(ScannerDef(instance)), acts).value)
  {
    BuildsScannerTables();
    ReachableExclusive(Config, Hooks, "stopped", NoFinal, instance, acts);
  }

  /** A legal `stop` registers an invocation headed for `stopped`. */
  lemma StopHeadsForStopped(instance: nat, s: Snap)
    requires s.current in {"started", "active", "inactive"}
    ensures Trigger(Corrected, ScannerDef(instance), s, "stop", [], None).inflight[s.nextToken].to == Some("stopped")
  {
    StopLegal(s.current);
  }

  // ---------------------------------------------------------------------------
  // The scanner object
  // ---------------------------------------------------------------------------

  /** A built machine: its definition and its current snapshot. */
  datatype Fsm = Fsm(def: Def, snap: Snap)

  /** A machine over `tables`, numbered `n`, in its initial state `stopped`, before anything is fired. */
  function Fresh(tables: Tables, n: nat): (m: Fsm)
    ensures m.def == Def(tables, "stopped", NoFinal, n) && m.snap == Initial(m.def)
    ensures m.snap.current == "stopped" && m.snap.inflight == map[] && !m.snap.inTransition
  {
    var d := Def(tables, "stopped", NoFinal, n);
    Fsm(d, Initial(d))
  }

  /** What `start` relies on in a scanner's tables: no self-loop outstanding, and `start` leads from `stopped` to `started`. */
  ghost predicate StartReady(t: Tables)
  {
    Idle(t.states) && Lookup(t.events, "start", "stopped") == Some("started")
  }

  /** The scanner's own tables are ready for `start`. */
  lemma ScannerStartReady()
    ensures StartReady(ScannerTables())
  {
    StartLegal("stopped");
    BuildsScannerTables();
    BuildIdle(Config, Hooks);
  }

  /** Fire `name` on the machine, as a new invocation of the corrected engine. */
  function FireOn(m: Fsm, name: string, args: seq<Value>): (r: Fsm)
    ensures r.def == m.def && r.snap.current == m.snap.current
    ensures r.snap.nextToken == m.snap.nextToken + 1
    ensures m.snap.nextToken in r.snap.inflight
    ensures r.snap.inflight == m.snap.inflight[m.snap.nextToken := r.snap.inflight[m.snap.nextToken]]
    ensures var inv := r.snap.inflight[m.snap.nextToken];
      inv.name == name && inv.from == m.snap.current && inv.to == Lookup(m.def.t.events, name, m.snap.current)
      && inv.args == args && inv.status == Running && inv.pc == 0
  {
    m.(snap := Trigger(Corrected, m.def, m.snap, name, args, None))
  }

  /**
   * `trace` is a run of the engine on `m`'s definition, from its initial state
   * to `m`'s current snapshot, and that snapshot keeps transitions exclusive.
   */
  ghost predicate Traced(m: Fsm, trace: seq<Action>)
  {
    && m.def.initial == "stopped" && m.def.final == NoFinal
    && Run(Corrected, m.def, Initial(m.def), trace) == Some(m.snap)
    && Exclusive(m.snap)
  }

  /** The first event fired on a machine in its initial state starts its run. */
  lemma TracedFirst(m: Fsm, name: string, args: seq<Value>)
    requires m.def.initial == "stopped" && m.def.final == NoFinal
    requires m.snap == Initial(m.def) && Exclusive(m.snap) && Can(m.def.t, m.snap.current, name)
    ensures Traced(FireOn(m, name, args), [Fire(name, args)])
  {
    assert Traced(m, []);
    TracedFire(m, [], name, args);
    assert [] + [Fire(name, args)] == [Fire(name, args)];
  }

  /** `start` on a fresh machine over ready tables is the first action of its run, and heads for `started`. */
  lemma TracedStart(tables: Tables, n: nat, camera: Value)
    requires StartReady(tables)
    ensures Traced(FireOn(Fresh(tables, n), "start", [camera]), [Fire("start", [camera])])
    ensures FireOn(Fresh(tables, n), "start", [camera]).snap.inflight[0].to == Some("started")
  {
    var m := Fresh(tables, n);
    InitialExclusive(m.def);
    TracedFirst(m, "start", [camera]);
  }

  /** Calling a legal event's method is the engine's `Fire` action: it extends the run. */
  lemma TracedFire(m: Fsm, trace: seq<Action>, name: string, args: seq<Value>)
    requires Traced(m, trace) && Can(m.def.t, m.snap.current, name)
    ensures Apply(Corrected, m.def, m.snap, Fire(name, args)) == Some(FireOn(m, name, args).snap)
    ensures Traced(FireOn(m, name, args), trace + [Fire(name, args)])
  {
    RunSnoc(Corrected, m.def, Initial(m.def), trace, Fire(name, args));
    ApplyPreserves(m.def, m.snap, Fire(name, args));
  }

  /** Any enabled actions of the engine extend the run. */
  lemma TracedRun(m: Fsm, trace: seq<Action>, acts: seq<Action>)
    requires Traced(m, trace) && Run(Corrected, m.def, m.snap, acts).Some?
    ensures Traced(m.(snap := Run(Corrected, m.def, m.snap, acts).value), trace + acts)
  {
    RunAppend(Corrected, m.def, Initial(m.def), trace, acts);
    RunPreserves(m.def, m.snap, acts);
  }

  /**
   * The part of a `Scanner` that drives its machine: the tables its machines
   * are built from, the `backgroundScan` option, the current machine (none before the first `start`) and the number
   * of machines built so far, which numbers the next one. The ghost `trace`
   * records the engine's actions since the current machine was built.
   */
  class Scanner {
    const tables: Tables
    var backgroundScan: bool
    var fsm: Option<Fsm>
    var created: nat
    ghost var trace: seq<Action>

    /** The tables are ready for `start`; the current machine is built from them and `trace` is its run. */
    ghost predicate Valid()
      reads this
    {
      && StartReady(tables)
      && (fsm.Some? ==> fsm.value.def.t == tables && Traced(fsm.value, trace))
    }

    /**
     * `backgroundScan` is on unless the option is exactly `false`. The tables
     * are the scanner's configuration compiled (`ScannerTables`, which is
     * ready for `start` by `ScannerStartReady`).
     */
    constructor(backgroundScanOption: Option<bool>, tables: Tables)
      requires StartReady(tables)
      ensures Valid() && this.tables == tables
      ensures backgroundScan == (backgroundScanOption != Some(false))
      ensures fsm == None && created == 0
    {
      this.tables := tables;
      backgroundScan := backgroundScanOption != Some(false);
      fsm := None;
      created := 0;
      trace := [];
    }

    /** The condition of `activate` with this scanner as its receiver. */
    function Condition(visible: bool): (r: Reply)
      reads this
      ensures r.Chose? && (r.pick == Named("active") <==> visible || backgroundScan)
    {
      ActivateCondition(visible, ScannerObject(backgroundScan))
    }

    /**
     * `start`: builds a fresh machine and fires `start` with the camera. The
     * source falls back to `stop` then `start` when `start` is not legal, but a
     * fresh machine is in `stopped`, where it always is (`StartReady`).
     */
    method Start(camera: Value)
      requires Valid()
      modifies this
      ensures Valid() && fsm.Some? && Exclusive(fsm.value.snap)
      ensures created == old(created) + 1 && backgroundScan == old(backgroundScan)
      ensures fsm == Some(FireOn(Fresh(tables, old(created)), "start", [camera]))
      ensures fsm.value.snap.inflight[0].to == Some("started")
    {
      var m := Fresh(tables, created);
      if Can(tables, m.snap.current, "start") {
        TracedStart(tables, created, camera);
        created := created + 1;
        fsm := Some(FireOn(m, "start", [camera]));
        trace := [Fire("start", [camera])];
      } else {
        assert false;
      }
    }

    /**
     * The engine runs the actions `acts` on the current machine: the links of
     * the chains in flight, the settling of finished ones, and nested triggers.
     * Fails (`ok` false) with no machine or when an action is not enabled.
     */
    method Progress(acts: seq<Action>) returns (ok: bool)
      requires Valid()
      modifies this
      ensures Valid() && (fsm.Some? ==> Exclusive(fsm.value.snap))
      ensures ok <==> old(fsm).Some? && Run(Corrected, old(fsm).value.def, old(fsm).value.snap, acts).Some?
      ensures backgroundScan == old(backgroundScan) && created == old(created)
      ensures !ok ==> fsm == old(fsm)
      ensures ok ==> fsm == Some(old(fsm).value.(snap := Run(Corrected, old(fsm).value.def, old(fsm).value.snap, acts).value))
    {
      if fsm.None? {
        return false;
      }
      var m := fsm.value;
      var r := Run(Corrected, m.def, m.snap, acts);
      if r.None? {
        return false;
      }
      TracedRun(m, trace, acts);
      fsm := Some(m.(snap := r.value));
      trace := trace + acts;
      return true;
    }

    /**
     * `stop`: fires `stop` only when it is legal in the current state. Before
     * the first `start` there is no machine and the call fails (`ok` false).
     */
    method Stop() returns (ok: bool)
      requires Valid()
      modifies this
      ensures Valid() && (fsm.Some? ==> Exclusive(fsm.value.snap))
      ensures ok <==> old(fsm).Some?
      ensures backgroundScan == old(backgroundScan) && created == old(created)
      ensures old(fsm).None? ==> fsm == old(fsm)
      ensures old(fsm).Some? ==>
        var m := old(fsm).value;
        fsm == Some(if Can(m.def.t, m.snap.current, "stop") then FireOn(m, "stop", []) else m)
    {
      if fsm.None? {
        return false;
      }
      FireIfLegal("stop", []);
      return true;
    }

    /**
     * The page's visibility changed. Visible: fire `activate` if it is legal.
     * Hidden: fire `deactivate` if background scanning is off and it is legal.
     * Consulting a machine that does not exist yet fails (`ok` false); with
     * background scanning on, a hidden page never consults it.
     */
    method VisibilityChanged(visible: bool) returns (ok: bool)
      requires Valid()
      modifies this
      ensures Valid() && (fsm.Some? ==> Exclusive(fsm.value.snap))
      ensures ok <==> old(fsm).Some? || (!visible && backgroundScan)
      ensures backgroundScan == old(backgroundScan) && created == old(created)
      ensures old(fsm).None? || (!visible && backgroundScan) ==> fsm == old(fsm)
      ensures old(fsm).Some? && visible ==>
        var m := old(fsm).value;
        fsm == Some(if Can(m.def.t, m.snap.current, "activate") then FireOn(m, "activate", []) else m)
      ensures old(fsm).Some? && !visible && !backgroundScan ==>
        var m := old(fsm).value;
        fsm == Some(if Can(m.def.t, m.snap.current, "deactivate") then FireOn(m, "deactivate", []) else m)
    {
      if visible {
        if fsm.None? {
          return false;
        }
        FireIfLegal("activate", []);
        return true;
      }
      if backgroundScan {
        return true;
      }
      if fsm.None? {
        return false;
      }
      FireIfLegal("deactivate", []);
      return true;
    }

    /** `if (this._fsm.can(name)) this._fsm[name]()`: the call joins the machine's run. */
    method FireIfLegal(name: string, args: seq<Value>)
      requires Valid() && fsm.Some?
      modifies this
      ensures Valid() && fsm.Some? && Exclusive(fsm.value.snap)
      ensures backgroundScan == old(backgroundScan) && created == old(created)
      ensures var m := old(fsm).value;
        fsm == Some(if Can(m.def.t, m.snap.current, name) then FireOn(m, name, args) else m)
    {
      var m := fsm.value;
      if Can(m.def.t, m.snap.current, name) {
        TracedFire(m, trace, name, args);
        fsm := Some(FireOn(m, name, args));
        trace := trace + [Fire(name, args)];
      }
    }
  }
}
