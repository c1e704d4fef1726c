/**
 * The state machine object itself (fsm-as-promised/index.ts): the tables
 * `init` fills with its `forEach` loops, and the per-instance fields the
 * pipeline of every trigger updates stage by stage. Each method is proved
 * equal to the pure function of FsmTables or FsmRuntime that specifies it,
 * and the runtime methods keep the exclusion invariant of FsmExclusion.
 */
module FsmMachine {

  import opened Wrappers
  import opened FsmTables
  import opened FsmRuntime
  import opened FsmTableProps
  import opened FsmExclusion

  class Machine {
    // The tables built by init.
    var events: EventTable
    var states: map<string, set<LoopKey>>
    var pseudoStates: map<string, string>
    var pseudoEvents: map<string, string>
    var callbacks: map<string, Hook>
    // The configuration.
    var initial: string
    var final: Final
    var instance: nat
    // The instance state.
    var current: string
    var inTransition: bool
    var responses: map<string, string>
    var nextToken: nat
    var inflight: map<nat, Inv>
    var emitted: seq<string>

    function Table(): Tables
      reads this
    {
      Tables(events, states, pseudoStates, pseudoEvents, callbacks)
    }

    function Definition(): Def
      reads this
    {
      Def(Table(), initial, final, instance)
    }

    function Snapshot(): Snap
      reads this
    {
      Snap(current, inTransition, states, responses, nextToken, inflight, emitted)
    }

    /** Transitions are mutually exclusive: at most one INTER holds the lock, and no INTER starts over a self-loop. */
    ghost predicate Valid()
      reads this
    {
      Exclusive(Snapshot())
    }

    /** Building the tables leaves the configuration and the instance state alone. */
    twostate predicate RuntimeKept()
      reads this
    {
      && Snapshot().(states := map[]) == old(Snapshot().(states := map[]))
      && (initial, final, instance) == old((initial, final, instance))
    }

    /** Running a transition leaves everything but `states` of the definition alone. */
    twostate predicate DefinitionKept()
      reads this
    {
      && Table().(states := map[]) == old(Table().(states := map[]))
      && (initial, final, instance) == old((initial, final, instance))
    }

    /** The object before `init`: empty tables, the user's callbacks, `current == initial`. */
    constructor(userHooks: set<string>, initial: string, final: Final, instance: nat)
      ensures Table() == Empty(userHooks)
      ensures this.initial == initial && this.final == final && this.instance == instance
      ensures Snapshot() == Snap(initial, false, map[], map[], 0, map[], [])
      ensures Valid()
    {
      events := map[];
      states := map[];
      pseudoStates := map[];
      pseudoEvents := map[];
      callbacks := map h | h in userHooks :: UserHook;
      this.initial := initial;
      this.final := final;
      this.instance := instance;
      current := initial;
      inTransition := false;
      responses := map[];
      nextToken := 0;
      inflight := map[];
      emitted := [];
      new;
      InitialExclusive(Definition());
    }

    // -------------------------------------------------------------------------
    // Building the tables
    // -------------------------------------------------------------------------

    /** addState: registers each name that is not registered yet, with no outstanding self-loops. */
    method AddState(names: seq<string>)
      modifies this
      ensures Table() == old(Table()).(states := AddStates(old(states), names))
      ensures RuntimeKept()
    {
      for i := 0 to |names|
        invariant states == AddStates(old(states), names[..i])
        invariant Table() == old(Table()).(states := states)
        invariant RuntimeKept()
      {
        assert names[..i + 1][..i] == names[..i];
        var s := names[i];
        if s !in states {
          states := states[s := {}];
        }
      }
      assert names[..|names|] == names;
    }

    /** The loop of addBasicEvent: `events[name][from] = to || from` for every origin. */
    method AddBasicEdges(name: string, origins: seq<string>, to: string)
      requires name in events
      modifies this
      ensures Table() == old(Table()).(events := PutEdges(old(events), name, origins, to))
      ensures RuntimeKept()
    {
      for i := 0 to |origins|
        invariant name in events
        invariant events == PutEdges(old(events), name, origins[..i], to)
        invariant Table() == old(Table()).(events := events)
        invariant RuntimeKept()
      {
        assert origins[..i + 1][..i] == origins[..i];
        var f := origins[i];
        events := events[name := events[name][f := Dest(to, f)]];
      }
      assert origins[..|origins|] == origins;
    }

    /** addEvent for an event without condition: create the row, then addBasicEvent. */
    method AddPlain(name: string, origins: seq<string>, to: string)
      modifies this
      ensures Table() == old(Table()).(events := AddPlainEvent(old(events), name, origins, to))
      ensures RuntimeKept()
    {
      events := EnsureRow(events, name);
      AddBasicEdges(name, origins, to);
    }

    /** The pseudo-state of addConditionalEvent: recorded with its origin `f`, and registered as a state. */
    method AddPseudoState(ps: string, f: string)
      modifies this
      ensures Table() == old(Table()).(pseudoStates := old(pseudoStates)[ps := f], states := AddStates(old(states), [ps]))
      ensures RuntimeKept()
    {
      pseudoStates := pseudoStates[ps := f];
      AddState([ps]);
    }

    /** addConditionalEvent for one origin `f`, up to the candidates: the pseudo-state, `name: f -> ps` and `ps--no-choice`. */
    method AddChoiceBase(name: string, f: string)
      modifies this
      ensures Table() == ChoiceBase(old(Table()), name, f)
      ensures RuntimeKept()
    {
      var ps := PseudoState(f, name);
      var noChoice := PseudoEvent(ps, NoChoiceFound);
      AddPseudoState(ps, f);
      ghost var t2 := Table();
      AddPlain(name, Origins(OneState(f)), ps);
      ghost var t3 := Table();
      assert t3 == t2.(events := AddPlainEvent(t2.events, name, Origins(OneState(f)), ps));
      AddPlain(noChoice, [ps], f);
      ghost var t4 := Table();
      assert t4 == t3.(events := AddPlainEvent(t3.events, noChoice, [ps], f));
      pseudoEvents := pseudoEvents[noChoice := name];
    }

    /** The candidate loop of addConditionalEvent: `ps--c : ps -> c`, mapped back to `name`, for every candidate. */
    method AddCandidateEvents(ps: string, name: string, cands: seq<string>)
      modifies this
      ensures Table() == AddCandidates(old(Table()), ps, name, cands)
      ensures RuntimeKept()
    {
      for j := 0 to |cands|
        invariant Table() == AddCandidates(old(Table()), ps, name, cands[..j])
        invariant RuntimeKept()
      {
        AddCandidatesStep(old(Table()), ps, name, cands, j);
        AddCandidateEvent(ps, name, cands[j]);
      }
      assert cands[..|cands|] == cands;
    }

    /** One step of the candidate loop: `ps--c : ps -> c`, recorded as a pseudo-event of `name`. */
    method AddCandidateEvent(ps: string, name: string, c: string)
      modifies this
      ensures Table() == AddCandidate(old(Table()), ps, name, c)
      ensures RuntimeKept()
    {
      var pe := PseudoEvent(ps, c);
      AddPlain(pe, [ps], c);
      pseudoEvents := pseudoEvents[pe := name];
    }

    /**
     * addConditionalEvent for one origin `f`: the pseudo-state, `name: f -> ps`,
     * the no-choice pseudo-event, one pseudo-event per candidate, and the
     * choice callback on entering the pseudo-state.
     */
    method AddChoiceAt(name: string, f: string, cands: seq<string>)
      modifies this
      ensures Table() == AddChoice(old(Table()), name, f, cands)
      ensures RuntimeKept()
    {
      var ps := PseudoState(f, name);
      AddChoiceBase(name, f);
      AddCandidateEvents(ps, name, cands);
      callbacks := callbacks[CallbackPrefix + "entered" + ps := ChoiceHook(name, f, cands)];
    }

    /** addConditionalEvent: a list of origins is handled one origin at a time, in order. */
    method AddConditional(name: string, fs: seq<string>, cands: seq<string>)
      modifies this
      ensures Table() == AddChoices(old(Table()), name, fs, cands)
      ensures RuntimeKept()
    {
      for i := 0 to |fs|
        invariant Table() == AddChoices(old(Table()), name, fs[..i], cands)
        invariant RuntimeKept()
      {
        assert fs[..i + 1][..i] == fs[..i];
        AddChoiceAt(name, fs[i], cands);
      }
      assert fs[..|fs|] == fs;
    }

    /** addEvent: the row, then the conditional or the basic case; a list `to` without condition is an error. */
    method AddEvent(e: EventSpec) returns (err: Option<BuildError>)
      modifies this
      ensures err.None? ==> FsmTables.AddEvent(old(Table()), e) == Success(Table())
      ensures err.Some? ==> FsmTables.AddEvent(old(Table()), e) == Failure(err.value)
      ensures RuntimeKept()
    {
      events := EnsureRow(events, e.name);
      if IsConditional(e) {
        AddConditional(e.name, ConditionalOrigins(e.from), e.to.states);
        return None;
      }
      if e.to.ToList? {
        return Some(AmbiguousTransition(e.name));
      }
      AddBasicEdges(e.name, Origins(e.from), TargetName(e.to));
      return None;
    }

    /** init's loop: addEvent, addState(from), addState(to) for each configured event; the first error aborts. */
    method Init(es: seq<EventSpec>) returns (err: Option<BuildError>)
      modifies this
      ensures err.None? ==> FsmTables.Init(old(Table()), es) == Success(Table())
      ensures err.Some? ==> FsmTables.Init(old(Table()), es) == Failure(err.value)
      ensures RuntimeKept()
    {
      for i := 0 to |es|
        invariant FsmTables.Init(old(Table()), es[..i]) == Success(Table())
        invariant RuntimeKept()
      {
        var e := es[i];
        InitStep(old(Table()), es, i);
        ghost var before := Table();
        err := AddEvent(e);
        if err.Some? {
          InitAborts(old(Table()), es, i + 1);
          return;
        }
        ghost var added := Table();
        AddState(Origins(e.from));
        AddState(Targets(e.to));
        assert Table() == added.(states := AddStates(AddStates(added.states, Origins(e.from)), Targets(e.to)));
        assert FsmTables.InitOne(before, e) == Success(Table());
      }
      assert es[..|es|] == es;
      return None;
    }

    // -------------------------------------------------------------------------
    // Running transitions (the corrected semantics)
    // -------------------------------------------------------------------------

    /** The stage succeeded: the chain moves on to its next link. */
    method Proceed(token: nat, inv: Inv)
      modifies this
      ensures Snapshot() == Next(old(Snapshot()), token, inv)
      ensures DefinitionKept()
    {
      inflight := inflight[token := inv.(pc := inv.pc + 1)];
    }

    /** The stage threw: the chain skips to its `catch`. */
    method Reject(token: nat, inv: Inv, err: Error)
      modifies this
      ensures Snapshot() == Throwing(old(Snapshot()), token, inv, err)
      ensures DefinitionKept()
    {
      inflight := inflight[token := inv.(status := Failing(err))];
    }

    /**
     * The method buildEvent installs for `name`: captures the current state,
     * the destination and the hooks, clears a shared `res`, and queues the chain.
     */
    method Register(name: string, args: seq<Value>, parent: Option<nat>) returns (token: nat)
      modifies this
      ensures Snapshot() == Trigger(Corrected, old(Definition()), old(Snapshot()), name, args, parent)
      ensures token == old(nextToken) && token in inflight
      ensures DefinitionKept()
    {
      var t := Table();
      var from := current;
      var to := Lookup(t.events, name, from);
      token := nextToken;
      var sharedRes := IsPseudoState(t, ToKey(to));
      var inv := Inv(name, from, to, IdFor(Corrected, token, from, to), args, Stages(t, name, from, to),
                     0, None, sharedRes, Running, parent, false, None);
      Enqueue(name, sharedRes, inv);
    }

    /** The new invocation takes the next token; a shared `res` starts over. */
    method Enqueue(name: string, sharedRes: bool, inv: Inv)
      modifies this
      ensures Snapshot() == old(Snapshot()).(responses := if sharedRes then old(responses) - {name} else old(responses),
                                             nextToken := old(nextToken) + 1,
                                             inflight := old(inflight)[old(nextToken) := inv])
      ensures DefinitionKept()
    {
      responses := if sharedRes then responses - {name} else responses;
      inflight := inflight[nextToken := inv];
      nextToken := nextToken + 1;
    }

    /** A caller invokes the method of a configured event; the exclusion invariant survives. */
    method TriggerEvent(name: string, args: seq<Value>) returns (token: nat)
      requires Valid() && name in events
      modifies this
      ensures Valid()
      ensures Snapshot() == Trigger(Corrected, old(Definition()), old(Snapshot()), name, args, None)
      ensures token == old(nextToken) && inflight[token].status == Running && inflight[token].pc == 0
      ensures DefinitionKept()
    {
      TriggerPreserves(Definition(), Snapshot(), name, args, None);
      token := Register(name, args, None);
    }

    /** isValidEvent, run when the chain reaches it. */
    method ValidateStage(token: nat, inv: Inv)
      modifies this
      ensures Snapshot() == ValidateStep(old(Definition()), old(Snapshot()), token, inv)
      ensures DefinitionKept()
    {
      if Can(Table(), current, inv.name) {
        Proceed(token, inv);
      } else {
        Reject(token, inv, FsmError(InvalidEvent, instance));
      }
    }

    /** canTransition, corrected: a NOOP registers its id where it runs, an INTER takes the lock. */
    method GuardStage(token: nat, inv: Inv)
      modifies this
      ensures Snapshot() == GuardStep(Corrected, old(Definition()), old(Snapshot()), token, inv)
      ensures DefinitionKept()
    {
      match inv.Kind()
      case Noop =>
        if inTransition {
          Reject(token, inv, FsmError(TransitionPending, instance));
        } else if current in states {
          states := AddKey(states, current, inv.id);
          Proceed(token, inv.(slot := Some(current)));
        } else {
          Reject(token, inv, OtherError);
        }
      case Inter =>
        if current !in states {
          Reject(token, inv, OtherError);
        } else if states[current] != {} {
          Reject(token, inv, FsmError(TransitionPending, instance));
        } else if inTransition {
          Reject(token, inv, FsmError(InterStarted, instance));
        } else {
          inTransition := true;
          Proceed(token, inv.(locked := true));
        }
      case General =>
        Proceed(token, inv);
    }

    /** onenterstate, corrected: a NOOP releases its slot; any other transition releases its lock, moves and emits. */
    method EnterStage(token: nat, inv: Inv)
      modifies this
      ensures Snapshot() == EnterStep(Corrected, old(Definition()), old(Snapshot()), token, inv)
      ensures DefinitionKept()
    {
      if inv.Kind() == Noop {
        if inv.slot.Some? && inv.slot.value in states {
          states := RemoveKey(states, inv.slot.value, inv.id);
        }
        Proceed(token, inv.(slot := None));
      } else {
        MoveTo(inv.to.value, inv.locked);
        Proceed(token, inv.(locked := false));
      }
    }

    /** The move of onenterstate: release the lock if held, change state, and emit unless `to` is a pseudo-state. */
    method MoveTo(to: string, locked: bool)
      modifies this
      ensures Snapshot() == old(Snapshot()).(inTransition := if locked then false else old(inTransition),
                                             current := to,
                                             emitted := if IsPseudoState(old(Table()), to) then old(emitted) else old(emitted) + [to])
      ensures DefinitionKept()
    {
      if locked {
        inTransition := false;
      }
      current := to;
      if !IsPseudoState(Table(), to) {
        emitted := emitted + [to];
      }
    }

    /** A callback resolved after setting `res` on the options object it received. */
    method AssignRes(token: nat, inv: Inv, ctx: Ctx, v: string)
      modifies this
      ensures Snapshot() == Assign(old(Snapshot()), token, inv, ctx, v)
      ensures DefinitionKept()
    {
      match ctx
      case PseudoOptions(key) =>
        responses := responses[key := v];
        Proceed(token, inv);
      case OwnOptions =>
        if inv.sharedRes {
          responses := responses[inv.name := v];
          Proceed(token, inv);
        } else {
          Proceed(token, inv.(res := Some(v)));
        }
    }

    /** A callback returned the promise of a nested trigger: the chain waits for that child. */
    method SpawnChild(token: nat, inv: Inv, name: string, args: seq<Value>, thenFail: bool)
      modifies this
      ensures Snapshot() == Spawn(Corrected, old(Definition()), old(Snapshot()), token, inv, name, args, thenFail)
      ensures DefinitionKept()
    {
      if name in events {
        var child := Register(name, args, Some(token));
        inflight := inflight[token := inv.(status := Awaiting(child, thenFail))];
      } else {
        Reject(token, inv, OtherError);
      }
    }

    /** A callback stage, with what the callback did. */
    method CallStage(token: nat, inv: Inv, h: Hook, ctx: Ctx, reply: Reply)
      requires Fits(h, reply)
      modifies this
      ensures Snapshot() == CallStep(Corrected, old(Definition()), old(Snapshot()), token, inv, h, ctx, reply)
      ensures DefinitionKept()
    {
      match reply
      case Throw(err) =>
        Reject(token, inv, err);
      case Done(v) =>
        if v.Some? {
          AssignRes(token, inv, ctx, v.value);
        } else {
          Proceed(token, inv);
        }
      case Await(name, args) =>
        SpawnChild(token, inv, name, args, false);
      case Chose(pick) =>
        var choice := Resolve(h.candidates, pick);
        SpawnChild(token, inv, ChoiceEvent(h.event, h.origin, choice), if choice.None? then [] else inv.args, choice.None?);
    }

    /** One link of the chain of invocation `token`; the exclusion invariant survives. */
    method AdvanceStage(token: nat, reply: Reply)
      requires Valid() && CanAdvance(Snapshot(), token, reply)
      modifies this
      ensures Valid()
      ensures Snapshot() == Advance(Corrected, old(Definition()), old(Snapshot()), token, reply)
      ensures DefinitionKept()
    {
      AdvancePreserves(Definition(), Snapshot(), token, reply);
      var inv := inflight[token];
      match inv.stages[inv.pc]
      case Validate => ValidateStage(token, inv);
      case Guard => GuardStage(token, inv);
      case LeaveState => Proceed(token, inv);
      case EnterState => EnterStage(token, inv);
      case Call(_, h, ctx) => CallStage(token, inv, h, ctx, reply);
    }

    /** revert, corrected: release the lock and the self-loop slot the invocation holds, and nothing else. */
    method Release(inv: Inv, err: Error)
      modifies this
      ensures (Snapshot(), err) == Revert(Corrected, old(Definition()), old(Snapshot()), inv, err)
      ensures DefinitionKept()
    {
      if inv.locked {
        inTransition := false;
      }
      if inv.slot.Some? && inv.slot.value in states {
        states := RemoveKey(states, inv.slot.value, inv.id);
      }
    }

    /** The settled child resumes its waiting parent, or makes it fail. */
    method ResumeParent(parent: Option<nat>, child: nat, outcome: Settled)
      modifies this
      ensures Snapshot() == Resume(old(Definition()), old(Snapshot()), parent, child, outcome)
      ensures DefinitionKept()
    {
      if parent.Some? && parent.value in inflight && inflight[parent.value].status.Awaiting?
         && inflight[parent.value].status.child == child {
        var p := inflight[parent.value];
        match outcome
        case Rejected(err) =>
          Reject(parent.value, p, err);
        case Resolved(_) =>
          if p.status.thenFail {
            Reject(parent.value, p, FsmError(ChoiceOutOfRange, instance));
          } else {
            Proceed(parent.value, p.(status := Running));
          }
      }
    }

    /** The end of a chain: `returnValue`, or `catch(revert)`; the exclusion invariant survives. */
    method SettleInvocation(token: nat) returns (outcome: Settled)
      requires Valid() && CanSettle(Snapshot(), token)
      modifies this
      ensures Valid()
      ensures (Snapshot(), outcome) == Settle(Corrected, old(Definition()), old(Snapshot()), token)
      ensures DefinitionKept()
    {
      SettlePreserves(Definition(), Snapshot(), token);
      outcome := Conclude(token);
    }

    /** returnValue or revert, then the invocation leaves the machine and its parent resumes. */
    method Conclude(token: nat) returns (outcome: Settled)
      requires CanSettle(Snapshot(), token)
      modifies this
      ensures (Snapshot(), outcome) == Settle(Corrected, old(Definition()), old(Snapshot()), token)
      ensures DefinitionKept()
    {
      ghost var d := Definition();
      var inv := inflight[token];
      if inv.status.Failing? {
        Release(inv, inv.status.err);
        outcome := Rejected(inv.status.err);
      } else {
        var res := if inv.sharedRes then MapGet(responses, inv.name) else inv.res;
        outcome := Resolved(if Truthy(res) then Res(res.value) else OptionsObject);
      }
      inflight := inflight - {token};
      ghost var s2 := Snapshot();
      ResumeParent(inv.parent, token, outcome);
      assert Snapshot() == Resume(d, s2, inv.parent, token, outcome);
    }
  }

  /**
   * create: a machine whose tables are the compiled configuration, in its
   * initial state and satisfying the exclusion invariant; or the builder's
   * error.
   */
  method Create(es: seq<EventSpec>, userHooks: set<string>, initial: string, final: Final, instance: nat)
    returns (r: Result<Machine, BuildError>)
    ensures r.Success? <==> Build(es, userHooks).Success?
    ensures r.Failure? ==> r.error == Build(es, userHooks).error
    ensures r.Success? ==>
      && fresh(r.value)
      && r.value.Definition() == Def(Build(es, userHooks).value, initial, final, instance)
      && r.value.Snapshot() == Initial(r.value.Definition())
      && r.value.Valid()
  {
    var m := new Machine(userHooks, initial, final, instance);
    var err := m.Init(es);
    if err.Some? {
      return Failure(err.value);
    }
    BuildIdle(es, userHooks);
    InitialExclusive(m.Definition());
    return Success(m);
  }
}
