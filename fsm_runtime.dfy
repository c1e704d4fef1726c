/**
 * The run-time side of the promise-based state machine (fsm-as-promised/index.ts,
 * buildEvent and the internal callbacks it chains). A triggered event becomes an
 * invocation: the list of stages its promise chain runs (validation, the guard,
 * the user's leave/enter hooks, the engine's own leave/enter bookkeeping). Every
 * stage runs in a microtask of its own, so other invocations may run between any
 * two of them; each stage is one step here, and "several transitions in flight"
 * is any interleaving of steps of several invocations.
 *
 * The steps exist in two semantics. `AsWritten` follows the code. `Corrected`
 * repairs the lock and self-loop bookkeeping (README "Findings"): a self-loop
 * registers in the guard itself, and a failing invocation only releases what it
 * holds. The `Machine` class runs the corrected semantics.
 */
module FsmRuntime {

  import opened Wrappers
  import opened FsmTables

  // ---------------------------------------------------------------------------
  // Static parts of a machine
  // ---------------------------------------------------------------------------

  /** The configured `final`: absent (null), one state, or a list of states. */
  datatype Final = NoFinal | FinalOne(state: string) | FinalMany(states: seq<string>)

  /** What a machine is built from: the compiled tables, `initial`, `final` and its instance id. */
  datatype Def = Def(t: Tables, initial: string, final: Final, instance: nat)

  datatype Semantics = AsWritten | Corrected

  /** NOOP (self-loop or undefined destination), INTER (a change of state) or GENERAL (from `*`). */
  datatype Kind = Noop | Inter | General

  /** `type`: the NOOP test comes first, then the wildcard origin. */
  function TypeOf(from: string, to: Option<string>): (k: Kind)
    ensures k == Noop <==> to == None || to == Some(from)
    ensures k == General <==> k != Noop && from == "*"
  {
    if to.None? || to.value == from then Noop
    else if from == "*" then General
    else Inter
  }

  // ---------------------------------------------------------------------------
  // Errors, argument values and the replies of opaque callbacks
  // ---------------------------------------------------------------------------

  datatype ErrorKind = InvalidEvent | TransitionPending | InterStarted | ChoiceOutOfRange

  /** An FsmError with its message and instance id, or any other error (a TypeError, a user's error). */
  datatype Error = FsmError(kind: ErrorKind, instance: nat) | OtherError

  /** An argument passed to a trigger; its contents are opaque to the engine. */
  datatype Value = Undefined | Val(text: string)

  /** What a condition function returns: a number, a string, or anything else. */
  datatype Pick = Index(i: int) | Named(state: string) | NoPick

  /**
   * How an opaque callback ends: it resolves (possibly after assigning
   * `options.res`), it throws, it returns the promise of another trigger of the
   * same machine, or (a condition function) it returns a pick.
   */
  datatype Reply = Done(setRes: Option<string>) | Throw(err: Error) | Await(event: string, args: seq<Value>) | Chose(pick: Pick)

  /** User callbacks resolve, throw or await; condition functions pick or throw. */
  predicate Fits(h: Hook, r: Reply)
  {
    match h
    case UserHook => !r.Chose?
    case ChoiceHook(_, _, _) => r.Chose? || r.Throw?
  }

  // ---------------------------------------------------------------------------
  // Invocations
  // ---------------------------------------------------------------------------

  /** Which options object a hook receives: the invocation's own, or the pseudo-event's `pOptions`. */
  datatype Ctx = OwnOptions | PseudoOptions(resKey: string)

  /** One link of the promise chain built by a trigger. */
  datatype Stage = Validate | Guard | Call(key: string, hook: Hook, ctx: Ctx) | LeaveState | EnterState

  /** Running, waiting for a nested trigger (and then failing if it was the no-choice event), or failing. */
  datatype Status = Running | Awaiting(child: nat, thenFail: bool) | Failing(err: Error)

  /**
   * An invocation in flight. `from`, `to` and `stages` are captured when it is
   * triggered; `pc` is the next stage; `res` is its own `options.res` unless
   * `sharedRes` (a pseudo-state destination keeps it in `responses[name]`).
   * `locked` and `slot` record what it holds: the inter-state lock, and the state
   * whose self-loop set holds its id.
   */
  datatype Inv = Inv(
    name: string, from: string, to: Option<string>, id: LoopKey, args: seq<Value>,
    stages: seq<Stage>, pc: nat, res: Option<string>, sharedRes: bool,
    status: Status, parent: Option<nat>, locked: bool, slot: Option<string>)
  {
    function Kind(): Kind { TypeOf(from, to) }
  }

  /** The mutable per-instance state, plus the list of `'state'` notifications emitted so far. */
  datatype Snap = Snap(
    current: string, inTransition: bool, states: map<string, set<LoopKey>>,
    responses: map<string, string>, nextToken: nat, inflight: map<nat, Inv>, emitted: seq<string>)

  /** A freshly built instance: `current == initial`, nothing in flight. */
  function Initial(d: Def): Snap
  {
    Snap(d.initial, false, d.t.states, map[], 0, map[], [])
  }

  // ---------------------------------------------------------------------------
  // Queries
  // ---------------------------------------------------------------------------

  /** JavaScript truthiness of an optional string. */
  predicate Truthy(v: Option<string>)
  {
    v.Some? && v.value != ""
  }

  /** `can`: the event has a truthy destination from the current state. */
  predicate Can(t: Tables, current: string, name: string)
  {
    Truthy(Lookup(t.events, name, current))
  }

  predicate Cannot(t: Tables, current: string, name: string)
  {
    !Can(t, current, name)
  }

  predicate HasState(s: Snap, state: string)
  {
    state in s.states
  }

  predicate Is(s: Snap, state: string)
  {
    state == s.current
  }

  /** `isFinal`: an absent or empty argument means the current state. */
  predicate IsFinal(final: Final, current: string, state: Option<string>)
  {
    var st := if Truthy(state) then state.value else current;
    match final
    case NoFinal => false
    case FinalOne(f) => f == st
    case FinalMany(fs) => st in fs
  }

  /** A pseudo-state whose origin is a truthy name (`pseudoStates[x]` is tested for truthiness). */
  predicate IsPseudoState(t: Tables, x: string)
  {
    Truthy(MapGet(t.pseudoStates, x))
  }

  predicate IsPseudoEvent(t: Tables, name: string)
  {
    Truthy(MapGet(t.pseudoEvents, name))
  }

  /** A destination as it appears inside a callback name; an undefined one reads "undefined". */
  function ToKey(to: Option<string>): string
  {
    if to.Some? then to.value else "undefined"
  }

  // ---------------------------------------------------------------------------
  // Triggering: the stage list
  // ---------------------------------------------------------------------------

  function OptCall(cb: map<string, Hook>, key: string, ctx: Ctx): seq<Stage>
  {
    if key in cb then [Call(key, cb[key], ctx)] else []
  }

  /** The context the enter hooks of a trigger of `name` receive. */
  function EnterCtx(t: Tables, name: string): Ctx
  {
    if IsPseudoEvent(t, name) then PseudoOptions(t.pseudoEvents[name]) else OwnOptions
  }

  /** `onleave<from>`, `onleave`, leave bookkeeping, `on<name>`, `onenter<to>`, `onenter` (not for a pseudo-state). */
  function BeforeEnter(t: Tables, name: string, from: string, to: Option<string>): seq<Stage>
  {
    var cb := t.callbacks;
    var ctx := EnterCtx(t, name);
    OptCall(cb, CallbackPrefix + "leave" + from, OwnOptions)
    + OptCall(cb, CallbackPrefix + "leave", OwnOptions)
    + [LeaveState]
    + OptCall(cb, CallbackPrefix + name, OwnOptions)
    + OptCall(cb, CallbackPrefix + "enter" + ToKey(to), ctx)
    + (if IsPseudoState(t, ToKey(to)) then [] else OptCall(cb, CallbackPrefix + "enter", ctx))
  }

  /** `onentered<to>`, `onentered` (not for a pseudo-state). */
  function AfterEnter(t: Tables, name: string, to: Option<string>): seq<Stage>
  {
    var cb := t.callbacks;
    var ctx := EnterCtx(t, name);
    OptCall(cb, CallbackPrefix + "entered" + ToKey(to), ctx)
    + (if IsPseudoState(t, ToKey(to)) then [] else OptCall(cb, CallbackPrefix + "entered", ctx))
  }

  /**
   * The chain buildEvent assembles: validation, the guard, the leave hooks and
   * bookkeeping, `on<name>`, the enter hooks, enter bookkeeping, the entered
   * hooks. The enter hooks of a pseudo-event receive `pOptions`.
   */
  function Stages(t: Tables, name: string, from: string, to: Option<string>): seq<Stage>
  {
    [Validate, Guard] + BeforeEnter(t, name, from, to) + [EnterState] + AfterEnter(t, name, to)
  }

  /** The id a trigger assigns: a fresh one for a self-loop (and, corrected, for every NOOP). */
  function IdFor(sem: Semantics, token: nat, from: string, to: Option<string>): LoopKey
  {
    if to == Some(from) || (sem == Corrected && TypeOf(from, to) == Noop) then Some(token) else None
  }

  /**
   * A trigger of `name` with `args`: captures `from`, `to` and the hooks, and
   * resets `responses[name]` when the destination is a pseudo-state.
   */
  function Trigger(sem: Semantics, d: Def, s: Snap, name: string, args: seq<Value>, parent: Option<nat>): Snap
  {
    var from := s.current;
    var to := Lookup(d.t.events, name, from);
    var token := s.nextToken;
    var sharedRes := IsPseudoState(d.t, ToKey(to));
    var inv := Inv(name, from, to, IdFor(sem, token, from, to), args, Stages(d.t, name, from, to),
                   0, None, sharedRes, Running, parent, false, None);
    s.(responses := if sharedRes then s.responses - {name} else s.responses,
       nextToken := token + 1,
       inflight := s.inflight[token := inv])
  }

  // ---------------------------------------------------------------------------
  // Running one stage
  // ---------------------------------------------------------------------------

  /** The invocation `token` can run its next stage with `reply` as the outcome of a callback. */
  predicate CanAdvance(s: Snap, token: nat, reply: Reply)
  {
    && token in s.inflight
    && s.inflight[token].status == Running
    && s.inflight[token].pc < |s.inflight[token].stages|
    && (s.inflight[token].stages[s.inflight[token].pc].Call? ==>
          Fits(s.inflight[token].stages[s.inflight[token].pc].hook, reply))
  }

  function Put(s: Snap, token: nat, inv: Inv): Snap
  {
    s.(inflight := s.inflight[token := inv])
  }

  /** The stage succeeded: move to the next one. */
  function Next(s: Snap, token: nat, inv: Inv): Snap
  {
    Put(s, token, inv.(pc := inv.pc + 1))
  }

  /** The stage threw: the chain skips to its `catch`. */
  function Throwing(s: Snap, token: nat, inv: Inv, err: Error): Snap
  {
    Put(s, token, inv.(status := Failing(err)))
  }

  function AddKey(st: map<string, set<LoopKey>>, x: string, k: LoopKey): map<string, set<LoopKey>>
    requires x in st
  {
    st[x := st[x] + {k}]
  }

  function RemoveKey(st: map<string, set<LoopKey>>, x: string, k: LoopKey): map<string, set<LoopKey>>
    requires x in st
  {
    st[x := st[x] - {k}]
  }

  /** isValidEvent, at the moment the stage runs. */
  function ValidateStep(d: Def, s: Snap, token: nat, inv: Inv): Snap
  {
    if Can(d.t, s.current, inv.name) then Next(s, token, inv)
    else Throwing(s, token, inv, FsmError(InvalidEvent, d.instance))
  }

  /** canTransition; the corrected guard also registers a NOOP's id in the same step. */
  function GuardStep(sem: Semantics, d: Def, s: Snap, token: nat, inv: Inv): Snap
  {
    match inv.Kind()
    case Noop =>
      if s.inTransition then Throwing(s, token, inv, FsmError(TransitionPending, d.instance))
      else if sem == AsWritten then Next(s, token, inv)
      else if s.current in s.states then
        Next(s.(states := AddKey(s.states, s.current, inv.id)), token, inv.(slot := Some(s.current)))
      else Throwing(s, token, inv, OtherError)
    case Inter =>
      if s.current !in s.states then Throwing(s, token, inv, OtherError)
      else if s.states[s.current] != {} then Throwing(s, token, inv, FsmError(TransitionPending, d.instance))
      else if s.inTransition then Throwing(s, token, inv, FsmError(InterStarted, d.instance))
      else Next(s.(inTransition := true), token, inv.(locked := true))
    case General => Next(s, token, inv)
  }

  /** onleavestate: as written, a NOOP registers its id in the current state here. */
  function LeaveStep(sem: Semantics, s: Snap, token: nat, inv: Inv): Snap
  {
    if inv.Kind() == Noop && sem == AsWritten then
      if s.current in s.states then
        Next(s.(states := AddKey(s.states, s.current, inv.id)), token, inv.(slot := Some(s.current)))
      else Throwing(s, token, inv, OtherError)
    else Next(s, token, inv)
  }

  /**
   * onenterstate: a NOOP removes its id (as written from the current state,
   * corrected from the state it registered in); any other transition clears the
   * lock (corrected: only its own), moves to `to` and emits it unless it is a
   * pseudo-state.
   */
  function EnterStep(sem: Semantics, d: Def, s: Snap, token: nat, inv: Inv): Snap
  {
    if inv.Kind() == Noop then
      if sem == AsWritten then
        if s.current in s.states then
          Next(s.(states := RemoveKey(s.states, s.current, inv.id)), token, inv.(slot := None))
        else Throwing(s, token, inv, OtherError)
      else if inv.slot.Some? && inv.slot.value in s.states then
        Next(s.(states := RemoveKey(s.states, inv.slot.value, inv.id)), token, inv.(slot := None))
      else Next(s, token, inv.(slot := None))
    else
      var to := inv.to.value;
      var s1 := s.(inTransition := if sem == AsWritten || inv.locked then false else s.inTransition,
                   current := to,
                   emitted := if IsPseudoState(d.t, to) then s.emitted else s.emitted + [to]);
      Next(s1, token, inv.(locked := false))
  }

  /**
   * A callback resolved after assigning `res` on the options object it
   * received: `pOptions.res` and a pseudo-state destination's `res` live in
   * `responses`, any other `res` on the invocation's own options.
   */
  function Assign(s: Snap, token: nat, inv: Inv, ctx: Ctx, v: string): Snap
  {
    match ctx
    case PseudoOptions(key) => Next(s.(responses := s.responses[key := v]), token, inv)
    case OwnOptions =>
      if inv.sharedRes then Next(s.(responses := s.responses[inv.name := v]), token, inv)
      else Next(s, token, inv.(res := Some(v)))
  }

  /** A callback starts a nested trigger and the chain waits for its promise. */
  function Spawn(sem: Semantics, d: Def, s: Snap, token: nat, inv: Inv, name: string, args: seq<Value>, thenFail: bool): Snap
  {
    if name in d.t.events then
      var s1 := Trigger(sem, d, s, name, args, Some(token));
      Put(s1, token, inv.(status := Awaiting(s.nextToken, thenFail)))
    else Throwing(s, token, inv, OtherError)
  }

  /** Choice resolution: an index selects `cands[i]`, a name selects itself if it is a candidate. */
  function Resolve(cands: seq<string>, pick: Pick): Option<string>
  {
    match pick
    case Index(i) => if 0 <= i < |cands| then Some(cands[i]) else None
    case Named(c) => if c in cands then Some(c) else None
    case NoPick => None
  }

  /** The pseudo-event the choice callback of `name` at origin `f` fires for a resolved candidate. */
  function ChoiceEvent(name: string, f: string, choice: Option<string>): string
  {
    PseudoEvent(PseudoState(f, name), if choice.Some? then choice.value else NoChoiceFound)
  }

  function CallStep(sem: Semantics, d: Def, s: Snap, token: nat, inv: Inv, h: Hook, ctx: Ctx, reply: Reply): Snap
    requires Fits(h, reply)
  {
    match reply
    case Throw(err) => Throwing(s, token, inv, err)
    case Done(v) => if v.Some? then Assign(s, token, inv, ctx, v.value) else Next(s, token, inv)
    case Await(name, args) => Spawn(sem, d, s, token, inv, name, args, false)
    case Chose(pick) =>
      var choice := Resolve(h.candidates, pick);
      Spawn(sem, d, s, token, inv, ChoiceEvent(h.event, h.origin, choice), if choice.None? then [] else inv.args, choice.None?)
  }

  /** One stage of invocation `token`. */
  function Advance(sem: Semantics, d: Def, s: Snap, token: nat, reply: Reply): Snap
    requires CanAdvance(s, token, reply)
  {
    var inv := s.inflight[token];
    match inv.stages[inv.pc]
    case Validate => ValidateStep(d, s, token, inv)
    case Guard => GuardStep(sem, d, s, token, inv)
    case LeaveState => LeaveStep(sem, s, token, inv)
    case EnterState => EnterStep(sem, d, s, token, inv)
    case Call(_, h, ctx) => CallStep(sem, d, s, token, inv, h, ctx, reply)
  }

  // ---------------------------------------------------------------------------
  // Settling: the return value, or revert
  // ---------------------------------------------------------------------------

  /** What the promise of a trigger settles with. */
  datatype Return = Res(value: string) | OptionsObject
  datatype Settled = Resolved(ret: Return) | Rejected(err: Error)

  /** returnValue: `options.res || options`. */
  function ReturnValue(s: Snap, inv: Inv): Return
  {
    var res := if inv.sharedRes then MapGet(s.responses, inv.name) else inv.res;
    if Truthy(res) then Res(res.value) else OptionsObject
  }

  /** instanceErrorHandler's test: cleanup is skipped only for this instance's own invalid-event error. */
  predicate SkipsCleanup(d: Def, err: Error)
  {
    err == FsmError(InvalidEvent, d.instance)
  }

  /**
   * revert, with the error the promise finally rejects with. As written: an
   * INTER clears the lock and a NOOP deletes its id from the current state
   * (a TypeError if the state is unknown). Corrected: release exactly what the
   * invocation holds.
   */
  function Revert(sem: Semantics, d: Def, s: Snap, inv: Inv, err: Error): (Snap, Error)
  {
    if sem == AsWritten then
      if SkipsCleanup(d, err) then (s, err)
      else match inv.Kind()
        case Inter => (s.(inTransition := false), err)
        case Noop =>
          if s.current in s.states then (s.(states := RemoveKey(s.states, s.current, inv.id)), err)
          else (s, OtherError)
        case General => (s, err)
    else
      var s1 := if inv.locked then s.(inTransition := false) else s;
      if inv.slot.Some? && inv.slot.value in s1.states then (s1.(states := RemoveKey(s1.states, inv.slot.value, inv.id)), err)
      else (s1, err)
  }

  /** A waiting parent chain resumes, or fails, when the nested trigger settles. */
  function Resume(d: Def, s: Snap, parent: Option<nat>, child: nat, outcome: Settled): Snap
  {
    if parent.Some? && parent.value in s.inflight && s.inflight[parent.value].status.Awaiting?
       && s.inflight[parent.value].status.child == child then
      var p := s.inflight[parent.value];
      match outcome
      case Rejected(err) => Throwing(s, parent.value, p, err)
      case Resolved(_) =>
        if p.status.thenFail then Throwing(s, parent.value, p, FsmError(ChoiceOutOfRange, d.instance))
        else Next(s, parent.value, p.(status := Running))
    else s
  }

  /** The invocation has run every stage, or is failing. */
  predicate CanSettle(s: Snap, token: nat)
  {
    && token in s.inflight
    && (s.inflight[token].status.Failing?
        || (s.inflight[token].status == Running && s.inflight[token].pc == |s.inflight[token].stages|))
  }

  /** The end of the chain: `returnValue`, or `catch(revert)`; the invocation leaves the machine. */
  function Settle(sem: Semantics, d: Def, s: Snap, token: nat): (Snap, Settled)
    requires CanSettle(s, token)
  {
    var inv := s.inflight[token];
    if inv.status.Failing? then
      var (s1, err) := Revert(sem, d, s, inv, inv.status.err);
      var s2 := s1.(inflight := s1.inflight - {token});
      (Resume(d, s2, inv.parent, token, Rejected(err)), Rejected(err))
    else
      var ret := ReturnValue(s, inv);
      var s2 := s.(inflight := s.inflight - {token});
      (Resume(d, s2, inv.parent, token, Resolved(ret)), Resolved(ret))
  }

  // ---------------------------------------------------------------------------
  // Runs: any interleaving of triggers, stages and settlements
  // ---------------------------------------------------------------------------

  /** Calling the trigger method of an event, running one stage of an invocation, or settling one. */
  datatype Action = Fire(name: string, args: seq<Value>) | Step(token: nat, reply: Reply) | Finish(token: nat)

  /** One action, if it is enabled: the target only has methods for configured events. */
  function Apply(sem: Semantics, d: Def, s: Snap, a: Action): Option<Snap>
  {
    match a
    case Fire(name, args) => if name in d.t.events then Some(Trigger(sem, d, s, name, args, None)) else None
    case Step(token, reply) => if CanAdvance(s, token, reply) then Some(Advance(sem, d, s, token, reply)) else None
    case Finish(token) => if CanSettle(s, token) then Some(Settle(sem, d, s, token).0) else None
  }

  /** A sequence of actions, stopping at the first that is not enabled. */
  function Run(sem: Semantics, d: Def, s: Snap, acts: seq<Action>): Option<Snap>
    decreases |acts|
  {
    if acts == [] then Some(s)
    else match Apply(sem, d, s, acts[0])
      case None => None
      case Some(s1) => Run(sem, d, s1, acts[1..])
  }
}
