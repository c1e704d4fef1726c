/**
 * The definition side of the promise-based state machine (fsm-as-promised/index.ts):
 * how a list of event specifications is compiled into an event table
 * `events[name][from] = to`, a state table holding each state's outstanding
 * self-loop ids, and — for conditional events — pseudo-states, pseudo-events and
 * the choice callbacks. Each builder operation is a pure function here; the
 * class in fsm_machine.dfy fills its fields with loops proved equal to them.
 */
module FsmTables {

  import opened Wrappers

  /** `from` of an event specification: one state or a list of states. */
  datatype Origin = OneState(state: string) | StateList(states: seq<string>)

  /** `to` of an event specification: absent, one state, or a list (conditional events only). */
  datatype Destination = NoDestination | ToState(state: string) | ToList(states: seq<string>)

  /** One element of the configuration's `events` list; the condition function itself is opaque. */
  datatype EventSpec = EventSpec(name: string, from: Origin, to: Destination, hasCondition: bool)

  /** A callback slot: a user function (opaque) or the engine's own choice resolver. */
  datatype Hook = UserHook | ChoiceHook(event: string, origin: string, candidates: seq<string>)

  type EventTable = map<string, map<string, string>>

  /**
   * The key a self-loop registers under in `states[s].noopTransitions`: the
   * invocation's id, or None for the key `undefined` an invocation without id uses.
   */
  type LoopKey = Option<nat>

  /**
   * Everything the builder fills: `events`, `states` (state -> outstanding
   * self-loop ids), `pseudoStates` (pseudo-state -> origin), `pseudoEvents`
   * (pseudo-event -> conditional event) and `callbacks`.
   */
  datatype Tables = Tables(
    events: EventTable,
    states: map<string, set<LoopKey>>,
    pseudoStates: map<string, string>,
    pseudoEvents: map<string, string>,
    callbacks: map<string, Hook>)

  datatype BuildError = AmbiguousTransition(event: string)

  const CallbackPrefix := "on"
  const NoChoiceFound := "no-choice"

  /** Names of pseudo-events: `state + "--" + name`. */
  function PseudoEvent(state: string, name: string): string
  {
    state + "--" + name
  }

  /** Names of pseudo-states: `from + "__" + name`. */
  function PseudoState(from: string, name: string): string
  {
    from + "__" + name
  }

  /** A conditional event has a condition function and a list of candidate destinations. */
  predicate IsConditional(e: EventSpec)
  {
    e.hasCondition && e.to.ToList?
  }

  /** `[].concat(from || [])`: a scalar empty name is dropped, a list is kept as it is. */
  function Origins(from: Origin): seq<string>
  {
    match from
    case OneState(s) => if s == "" then [] else [s]
    case StateList(ss) => ss
  }

  /** The states `addState(event.to)` registers. */
  function Targets(to: Destination): seq<string>
  {
    match to
    case NoDestination => []
    case ToState(s) => if s == "" then [] else [s]
    case ToList(ss) => ss
  }

  /** `to` of a plain event as a string; absent reads as the empty (falsy) name. */
  function TargetName(to: Destination): string
  {
    if to.ToState? then to.state else ""
  }

  /** The destination a plain event records for origin `from`: `to || from`. */
  function Dest(to: string, from: string): string
  {
    if to != "" then to else from
  }

  /** The origins a conditional event is split over: a scalar is used as is, even when empty. */
  function ConditionalOrigins(from: Origin): seq<string>
  {
    match from
    case OneState(s) => [s]
    case StateList(ss) => ss
  }

  /** `events[name][from]`, if set. */
  function Lookup(ev: EventTable, name: string, from: string): Option<string>
  {
    if name in ev && from in ev[name] then Some(ev[name][from]) else None
  }

  // ---------------------------------------------------------------------------
  // addState
  // ---------------------------------------------------------------------------

  /** `states[s] = states[s] || { noopTransitions: {} }` for every name, in order. */
  function AddStates(st: map<string, set<LoopKey>>, names: seq<string>): map<string, set<LoopKey>>
    decreases |names|
  {
    if names == [] then st
    else
      var prev := AddStates(st, names[..|names| - 1]);
      var s := names[|names| - 1];
      if s in prev then prev else prev[s := {}]
  }

  // ---------------------------------------------------------------------------
  // addEvent / addBasicEvent
  // ---------------------------------------------------------------------------

  /** `events[name] = events[name] || {}` */
  function EnsureRow(ev: EventTable, name: string): EventTable
  {
    if name in ev then ev else ev[name := map[]]
  }

  /** The loop of addBasicEvent: `events[name][from] = to || from` for every origin, in order. */
  function PutEdges(ev: EventTable, name: string, origins: seq<string>, to: string): (r: EventTable)
    requires name in ev
    ensures name in r && r.Keys == ev.Keys
    decreases |origins|
  {
    if origins == [] then ev
    else
      var prev := PutEdges(ev, name, origins[..|origins| - 1], to);
      var f := origins[|origins| - 1];
      prev[name := prev[name][f := Dest(to, f)]]
  }

  /** addEvent for a specification without condition and a scalar (or absent) `to`. */
  function AddPlainEvent(ev: EventTable, name: string, origins: seq<string>, to: string): EventTable
  {
    PutEdges(EnsureRow(ev, name), name, origins, to)
  }

  // ---------------------------------------------------------------------------
  // addConditionalEvent
  // ---------------------------------------------------------------------------

  /** The candidate loop: `ps--c : ps -> c` and `pseudoEvents[ps--c] = name`, in order. */
  function AddCandidates(t: Tables, ps: string, name: string, cands: seq<string>): Tables
    decreases |cands|
  {
    if cands == [] then t
    else AddCandidate(AddCandidates(t, ps, name, cands[..|cands| - 1]), ps, name, cands[|cands| - 1])
  }

  /** One more candidate extends the candidate loop by one step. */
  lemma AddCandidatesStep(t: Tables, ps: string, name: string, cands: seq<string>, j: nat)
    requires j < |cands|
    ensures AddCandidates(t, ps, name, cands[..j + 1])
         == AddCandidate(AddCandidates(t, ps, name, cands[..j]), ps, name, cands[j])
  {
    assert cands[..j + 1][..j] == cands[..j];
  }

  /** One step of the candidate loop. */
  function AddCandidate(t: Tables, ps: string, name: string, c: string): Tables
  {
    var pe := PseudoEvent(ps, c);
    t.(events := AddPlainEvent(t.events, pe, [ps], c),
       pseudoEvents := t.pseudoEvents[pe := name])
  }

  /**
   * addConditionalEvent for one origin `f`, up to the candidate loop: the
   * pseudo-state, `name: f -> ps` and `ps--no-choice: ps -> f`.
   */
  function ChoiceBase(t: Tables, name: string, f: string): Tables
  {
    var ps := PseudoState(f, name);
    var noChoice := PseudoEvent(ps, NoChoiceFound);
    var t1 := t.(pseudoStates := t.pseudoStates[ps := f]);
    var t2 := t1.(states := AddStates(t1.states, [ps]));
    var t3 := t2.(events := AddPlainEvent(t2.events, name, Origins(OneState(f)), ps));
    var t4 := t3.(events := AddPlainEvent(t3.events, noChoice, [ps], f));
    t4.(pseudoEvents := t4.pseudoEvents[noChoice := name])
  }

  /** addConditionalEvent for one origin `f`, step by step as the source does it. */
  function AddChoice(t: Tables, name: string, f: string, cands: seq<string>): Tables
  {
    var ps := PseudoState(f, name);
    var t6 := AddCandidates(ChoiceBase(t, name, f), ps, name, cands);
    t6.(callbacks := t6.callbacks[CallbackPrefix + "entered" + ps := ChoiceHook(name, f, cands)])
  }

  /** addConditionalEvent over all origins of a list-valued `from`, in order. */
  function AddChoices(t: Tables, name: string, fs: seq<string>, cands: seq<string>): Tables
    decreases |fs|
  {
    if fs == [] then t
    else AddChoice(AddChoices(t, name, fs[..|fs| - 1], cands), name, fs[|fs| - 1], cands)
  }

  /** addEvent: a conditional event, a plain event, or the "Ambigous transition" error. */
  function AddEvent(t: Tables, e: EventSpec): Result<Tables, BuildError>
  {
    var t0 := t.(events := EnsureRow(t.events, e.name));
    if IsConditional(e) then Success(AddChoices(t0, e.name, ConditionalOrigins(e.from), e.to.states))
    else if e.to.ToList? then Failure(AmbiguousTransition(e.name))
    else Success(t0.(events := AddPlainEvent(t0.events, e.name, Origins(e.from), TargetName(e.to))))
  }

  /** One iteration of init: addEvent, then addState(from), then addState(to). */
  function InitOne(t: Tables, e: EventSpec): Result<Tables, BuildError>
  {
    match AddEvent(t, e)
    case Failure(err) => Failure(err)
    case Success(t1) => Success(t1.(states := AddStates(AddStates(t1.states, Origins(e.from)), Targets(e.to))))
  }

  /** init's loop over the configured events, in order; the first error aborts. */
  function Init(t: Tables, es: seq<EventSpec>): Result<Tables, BuildError>
    decreases |es|
  {
    if es == [] then Success(t)
    else
      match Init(t, es[..|es| - 1])
      case Failure(err) => Failure(err)
      case Success(prev) => InitOne(prev, es[|es| - 1])
  }

  /** The tables before init runs: no events or states, only the user's callbacks. */
  function Empty(userHooks: set<string>): Tables
  {
    Tables(map[], map[], map[], map[], map h | h in userHooks :: UserHook)
  }

  /** Compiles a configuration. */
  function Build(es: seq<EventSpec>, userHooks: set<string>): Result<Tables, BuildError>
  {
    Init(Empty(userHooks), es)
  }

  /** init's loop, one event further. */
  lemma InitStep(t: Tables, es: seq<EventSpec>, i: nat)
    requires i < |es|
    ensures Init(t, es[..i + 1])
            == match Init(t, es[..i])
               case Failure(err) => Failure(err)
               case Success(prev) => InitOne(prev, es[i])
  {
    assert es[..i + 1][..i] == es[..i];
  }

  /** Once a prefix fails, so does the whole configuration, with the same error. */
  lemma {:induction false} InitAborts(t: Tables, es: seq<EventSpec>, k: nat)
    requires k <= |es| && Init(t, es[..k]).Failure?
    ensures Init(t, es) == Init(t, es[..k])
    decreases |es| - k
  {
    if k < |es| {
      assert es[..k + 1][..k] == es[..k];
      InitAborts(t, es, k + 1);
    } else {
      assert es[..k] == es;
    }
  }

  // ---------------------------------------------------------------------------
  // Properties of the builder
  // ---------------------------------------------------------------------------

  /** addState registers every name and never resets a state that is already registered. */
  lemma {:induction false} AddStatesSpec(st: map<string, set<LoopKey>>, names: seq<string>)
    ensures AddStates(st, names).Keys == st.Keys + set n | n in names
    ensures forall s :: s in st ==> AddStates(st, names)[s] == st[s]
    ensures forall s :: s in AddStates(st, names) && s !in st ==> AddStates(st, names)[s] == {}
    decreases |names|
  {
    if names != [] {
      var init := names[..|names| - 1];
      AddStatesSpec(st, init);
      assert (set n | n in names) == (set n | n in init) + {names[|names| - 1]};
    }
  }

  /** addBasicEvent sets `events[name][f] = to || f` for every origin `f` and changes nothing else. */
  lemma {:induction false} PutEdgesLookup(ev: EventTable, name: string, origins: seq<string>, to: string,
                                          n: string, s: string)
    requires name in ev
    ensures Lookup(PutEdges(ev, name, origins, to), n, s)
            == if n == name && s in origins then Some(Dest(to, s)) else Lookup(ev, n, s)
    decreases |origins|
  {
    if origins != [] {
      var init := origins[..|origins| - 1];
      PutEdgesLookup(ev, name, init, to, n, s);
      assert s in origins <==> s in init || s == origins[|origins| - 1];
    }
  }

  /** The plain part of addEvent, with the row creation. */
  lemma PlainEventLookup(ev: EventTable, name: string, origins: seq<string>, to: string, n: string, s: string)
    ensures name in AddPlainEvent(ev, name, origins, to)
    ensures AddPlainEvent(ev, name, origins, to).Keys == ev.Keys + {name}
    ensures Lookup(AddPlainEvent(ev, name, origins, to), n, s)
            == if n == name && s in origins then Some(Dest(to, s)) else Lookup(ev, n, s)
  {
    PutEdgesLookup(EnsureRow(ev, name), name, origins, to, n, s);
  }

  /** Pseudo-event names extend the pseudo-state name, so distinct candidates give distinct names. */
  lemma PseudoEventInjective(ps: string, c: string, d: string)
    ensures PseudoEvent(ps, c) == PseudoEvent(ps, d) <==> c == d
  {
    if PseudoEvent(ps, c) == PseudoEvent(ps, d) {
      assert c == PseudoEvent(ps, c)[|ps| + 2..];
      assert d == PseudoEvent(ps, d)[|ps| + 2..];
    }
  }

  /** A pseudo-event of a pseudo-state of `name` is longer than `name`, so never equal to it. */
  lemma PseudoEventNotEvent(f: string, name: string, c: string)
    ensures PseudoEvent(PseudoState(f, name), c) != name
  {
    assert |PseudoEvent(PseudoState(f, name), c)| > |name|;
  }

  /** `n` is the pseudo-event `ps--c` of one of the candidates `c`. */
  predicate IsCandidateEvent(n: string, ps: string, cands: seq<string>)
  {
    |n| >= |ps| + 2 && n[..|ps| + 2] == ps + "--" && n[|ps| + 2..] in cands
  }

  lemma CandidateEventOf(ps: string, c: string, cands: seq<string>)
    ensures IsCandidateEvent(PseudoEvent(ps, c), ps, cands) <==> c in cands
    ensures PseudoEvent(ps, c)[|ps| + 2..] == c
  {
    assert PseudoEvent(ps, c)[..|ps| + 2] == ps + "--";
  }

  /** The candidate loop leaves states, pseudo-states and callbacks alone. */
  lemma {:induction false} AddCandidatesFrame(t: Tables, ps: string, name: string, cands: seq<string>)
    ensures AddCandidates(t, ps, name, cands).states == t.states
    ensures AddCandidates(t, ps, name, cands).pseudoStates == t.pseudoStates
    ensures AddCandidates(t, ps, name, cands).callbacks == t.callbacks
    decreases |cands|
  {
    if cands != [] {
      AddCandidatesFrame(t, ps, name, cands[..|cands| - 1]);
    }
  }

  /** The candidate loop records `ps--c : ps -> c || ps` for every candidate and changes no other entry. */
  lemma {:induction false} AddCandidatesLookup(t: Tables, ps: string, name: string, cands: seq<string>,
                                               n: string, s: string)
    ensures Lookup(AddCandidates(t, ps, name, cands).events, n, s)
            == if s == ps && IsCandidateEvent(n, ps, cands) then Some(Dest(n[|ps| + 2..], ps))
               else Lookup(t.events, n, s)
    decreases |cands|
  {
    if cands != [] {
      var init := cands[..|cands| - 1];
      var c := cands[|cands| - 1];
      var prev := AddCandidates(t, ps, name, init);
      AddCandidatesLookup(t, ps, name, init, n, s);
      PlainEventLookup(prev.events, PseudoEvent(ps, c), [ps], c, n, s);
      CandidateEventOf(ps, c, cands);
      assert IsCandidateEvent(n, ps, cands) <==> IsCandidateEvent(n, ps, init) || n == PseudoEvent(ps, c);
    }
  }

  /** The candidate loop creates a row for every candidate's pseudo-event and no other. */
  lemma {:induction false} AddCandidatesRows(t: Tables, ps: string, name: string, cands: seq<string>, n: string)
    ensures n in AddCandidates(t, ps, name, cands).events <==> n in t.events || IsCandidateEvent(n, ps, cands)
    decreases |cands|
  {
    if cands != [] {
      var init := cands[..|cands| - 1];
      var c := cands[|cands| - 1];
      AddCandidatesRows(t, ps, name, init, n);
      PlainEventLookup(AddCandidates(t, ps, name, init).events, PseudoEvent(ps, c), [ps], c, n, "");
      CandidateEventOf(ps, c, cands);
      assert IsCandidateEvent(n, ps, cands) <==> IsCandidateEvent(n, ps, init) || n == PseudoEvent(ps, c);
    }
  }

  /** Every candidate's pseudo-event maps back to the conditional event; other entries are kept. */
  lemma {:induction false} AddCandidatesPseudoEvents(t: Tables, ps: string, name: string, cands: seq<string>, m: string)
    ensures MapGet(AddCandidates(t, ps, name, cands).pseudoEvents, m)
            == if IsCandidateEvent(m, ps, cands) then Some(name) else MapGet(t.pseudoEvents, m)
    decreases |cands|
  {
    if cands != [] {
      var init := cands[..|cands| - 1];
      var c := cands[|cands| - 1];
      AddCandidatesPseudoEvents(t, ps, name, init, m);
      CandidateEventOf(ps, c, cands);
      assert IsCandidateEvent(m, ps, cands) <==> IsCandidateEvent(m, ps, init) || m == PseudoEvent(ps, c);
    }
  }

  function MapGet<K, V>(m: map<K, V>, k: K): Option<V>
  {
    if k in m then Some(m[k]) else None
  }

  lemma ChoiceBaseLookup(t: Tables, name: string, f: string, n: string, s: string)
    ensures var ps := PseudoState(f, name);
      Lookup(ChoiceBase(t, name, f).events, n, s)
      == if s == ps && n == PseudoEvent(ps, NoChoiceFound) then Some(Dest(f, ps))
         else if n == name && s == f && f != "" then Some(ps)
         else Lookup(t.events, n, s)
  {
    var ps := PseudoState(f, name);
    var ev3 := AddPlainEvent(t.events, name, Origins(OneState(f)), ps);
    PlainEventLookup(t.events, name, Origins(OneState(f)), ps, n, s);
    PlainEventLookup(ev3, PseudoEvent(ps, NoChoiceFound), [ps], f, n, s);
    PseudoEventNotEvent(f, name, NoChoiceFound);
  }

  lemma ChoiceBaseRows(t: Tables, name: string, f: string, n: string)
    ensures n in ChoiceBase(t, name, f).events
            <==> n in t.events || n == name || n == PseudoEvent(PseudoState(f, name), NoChoiceFound)
  {
    var ps := PseudoState(f, name);
    var ev3 := AddPlainEvent(t.events, name, Origins(OneState(f)), ps);
    PlainEventLookup(t.events, name, Origins(OneState(f)), ps, n, "");
    PlainEventLookup(ev3, PseudoEvent(ps, NoChoiceFound), [ps], f, n, "");
  }

  /** The entries addConditionalEvent writes for one origin: which ones it sets, and to what. */
  lemma AddChoiceLookup(t: Tables, name: string, f: string, cands: seq<string>, n: string, s: string)
    ensures var ps := PseudoState(f, name);
      Lookup(AddChoice(t, name, f, cands).events, n, s)
      == if s == ps && IsCandidateEvent(n, ps, cands) then Some(Dest(n[|ps| + 2..], ps))
         else if s == ps && n == PseudoEvent(ps, NoChoiceFound) then Some(Dest(f, ps))
         else if n == name && s == f && f != "" then Some(ps)
         else Lookup(t.events, n, s)
  {
    AddCandidatesLookup(ChoiceBase(t, name, f), PseudoState(f, name), name, cands, n, s);
    ChoiceBaseLookup(t, name, f, n, s);
  }

  /** Which rows exist after addConditionalEvent for one origin. */
  lemma AddChoiceRows(t: Tables, name: string, f: string, cands: seq<string>, n: string)
    ensures var ps := PseudoState(f, name);
      n in AddChoice(t, name, f, cands).events
      <==> n in t.events || n == name || n == PseudoEvent(ps, NoChoiceFound) || IsCandidateEvent(n, ps, cands)
  {
    AddCandidatesRows(ChoiceBase(t, name, f), PseudoState(f, name), name, cands, n);
    ChoiceBaseRows(t, name, f, n);
  }

  /** addConditionalEvent for one origin registers the pseudo-state in the state table and nothing else. */
  lemma AddChoiceStates(t: Tables, name: string, f: string, cands: seq<string>)
    ensures AddChoice(t, name, f, cands).states == AddStates(t.states, [PseudoState(f, name)])
    ensures AddChoice(t, name, f, cands).pseudoStates == t.pseudoStates[PseudoState(f, name) := f]
    ensures AddChoice(t, name, f, cands).callbacks
            == t.callbacks[CallbackPrefix + "entered" + PseudoState(f, name) := ChoiceHook(name, f, cands)]
  {
    AddCandidatesFrame(ChoiceBase(t, name, f), PseudoState(f, name), name, cands);
  }

  /** Every pseudo-event of the origin maps back to the conditional event; other entries are kept. */
  lemma AddChoicePseudoEvents(t: Tables, name: string, f: string, cands: seq<string>, m: string)
    ensures var ps := PseudoState(f, name);
      MapGet(AddChoice(t, name, f, cands).pseudoEvents, m)
      == if IsCandidateEvent(m, ps, cands) || m == PseudoEvent(ps, NoChoiceFound) then Some(name)
         else MapGet(t.pseudoEvents, m)
  {
    AddCandidatesPseudoEvents(ChoiceBase(t, name, f), PseudoState(f, name), name, cands, m);
  }
}
