/**
 * What the builder promises about the tables it produces: the entries one
 * addEvent call creates, the entries a conditional event creates for each of
 * its origins, and that init leaves every origin and destination registered
 * as a state.
 */
module FsmTableProps {

  import opened Wrappers
  import opened FsmTables

  /** What addConditionalEvent promises for origin `f` of the conditional event `name`. */
  predicate ChoiceRegistered(t: Tables, name: string, f: string, cands: seq<string>)
  {
    ChoiceStateRegistered(t, name, f, cands) && ChoiceEdgesRegistered(t, name, f, cands)
    && ChoiceLinksRegistered(t, name, f, cands)
  }

  /** The pseudo-state maps back to `f`, is a state, and its entry callback is the choice resolver. */
  predicate ChoiceStateRegistered(t: Tables, name: string, f: string, cands: seq<string>)
  {
    var ps := PseudoState(f, name);
    && MapGet(t.pseudoStates, ps) == Some(f)
    && ps in t.states
    && MapGet(t.callbacks, CallbackPrefix + "entered" + ps) == Some(ChoiceHook(name, f, cands))
  }

  /** `name: f -> ps`, `ps--no-choice: ps -> f` and `ps--c: ps -> c` for every candidate. */
  predicate ChoiceEdgesRegistered(t: Tables, name: string, f: string, cands: seq<string>)
  {
    var ps := PseudoState(f, name);
    && (f != "" ==> Lookup(t.events, name, f) == Some(ps))
    && (NoChoiceFound !in cands ==> Lookup(t.events, PseudoEvent(ps, NoChoiceFound), ps) == Some(Dest(f, ps)))
    && (forall c :: c in cands ==> Lookup(t.events, PseudoEvent(ps, c), ps) == Some(Dest(c, ps)))
  }

  /** Every pseudo-event of the origin maps back to `name`. */
  predicate ChoiceLinksRegistered(t: Tables, name: string, f: string, cands: seq<string>)
  {
    var ps := PseudoState(f, name);
    && MapGet(t.pseudoEvents, PseudoEvent(ps, NoChoiceFound)) == Some(name)
    && (forall c :: c in cands ==> MapGet(t.pseudoEvents, PseudoEvent(ps, c)) == Some(name))
  }

  lemma PseudoStateInjective(f: string, g: string, name: string)
    ensures PseudoState(f, name) == PseudoState(g, name) <==> f == g
  {
    if PseudoState(f, name) == PseudoState(g, name) {
      assert |f| == |g|;
      assert f == PseudoState(f, name)[..|f|];
      assert g == PseudoState(g, name)[..|g|];
    }
  }

  lemma EnteredKeyInjective(p: string, q: string)
    ensures CallbackPrefix + "entered" + p == CallbackPrefix + "entered" + q <==> p == q
  {
    if CallbackPrefix + "entered" + p == CallbackPrefix + "entered" + q {
      assert p == (CallbackPrefix + "entered" + p)[9..];
      assert q == (CallbackPrefix + "entered" + q)[9..];
    }
  }

  /** An event name is too short to be a candidate pseudo-event of one of its own pseudo-states. */
  lemma NotOwnCandidate(f: string, name: string, cands: seq<string>)
    ensures !IsCandidateEvent(name, PseudoState(f, name), cands)
  {
  }

  /** One origin: every promised entry is in place. */
  lemma AddChoiceRegisters(t: Tables, name: string, f: string, cands: seq<string>)
    ensures ChoiceRegistered(AddChoice(t, name, f, cands), name, f, cands)
  {
    var r := AddChoice(t, name, f, cands);
    var ps := PseudoState(f, name);
    var nc := PseudoEvent(ps, NoChoiceFound);
    AddChoiceStates(t, name, f, cands);
    AddStatesSpec(t.states, [ps]);
    AddChoiceLookup(t, name, f, cands, name, f);
    NotOwnCandidate(f, name, cands);
    PseudoEventNotEvent(f, name, NoChoiceFound);
    AddChoiceLookup(t, name, f, cands, nc, ps);
    CandidateEventOf(ps, NoChoiceFound, cands);
    AddChoicePseudoEvents(t, name, f, cands, nc);
    forall c | c in cands
      ensures Lookup(r.events, PseudoEvent(ps, c), ps) == Some(Dest(c, ps))
      ensures MapGet(r.pseudoEvents, PseudoEvent(ps, c)) == Some(name)
    {
      CandidateEventOf(ps, c, cands);
      AddChoiceLookup(t, name, f, cands, PseudoEvent(ps, c), ps);
      AddChoicePseudoEvents(t, name, f, cands, PseudoEvent(ps, c));
    }
  }

  /** addConditionalEvent for origin `g` changes only the row `name` at `g` and pseudo-event rows at its pseudo-state. */
  lemma AddChoiceFrame(t: Tables, name: string, g: string, cands: seq<string>, n: string, s: string)
    requires s != PseudoState(g, name) || n == name
    requires n != name || s != g
    ensures Lookup(AddChoice(t, name, g, cands).events, n, s) == Lookup(t.events, n, s)
  {
    AddChoiceLookup(t, name, g, cands, n, s);
    NotOwnCandidate(g, name, cands);
    PseudoEventNotEvent(g, name, NoChoiceFound);
  }

  /** A later origin of the same conditional event does not disturb an earlier one's entries. */
  lemma AddChoicePreserves(t: Tables, name: string, f: string, g: string, cands: seq<string>)
    requires f != g
    requires ChoiceRegistered(t, name, f, cands)
    ensures ChoiceRegistered(AddChoice(t, name, g, cands), name, f, cands)
  {
    AddChoicePreservesState(t, name, f, g, cands);
    AddChoicePreservesEdges(t, name, f, g, cands);
    AddChoicePreservesLinks(t, name, f, g, cands);
  }

  lemma AddChoicePreservesState(t: Tables, name: string, f: string, g: string, cands: seq<string>)
    requires f != g
    requires ChoiceStateRegistered(t, name, f, cands)
    ensures ChoiceStateRegistered(AddChoice(t, name, g, cands), name, f, cands)
  {
    PseudoStateInjective(f, g, name);
    EnteredKeyInjective(PseudoState(f, name), PseudoState(g, name));
    AddChoiceStates(t, name, g, cands);
    AddStatesSpec(t.states, [PseudoState(g, name)]);
  }

  lemma AddChoicePreservesEdges(t: Tables, name: string, f: string, g: string, cands: seq<string>)
    requires f != g
    requires ChoiceEdgesRegistered(t, name, f, cands)
    ensures ChoiceEdgesRegistered(AddChoice(t, name, g, cands), name, f, cands)
  {
    var r := AddChoice(t, name, g, cands);
    var ps := PseudoState(f, name);
    PseudoStateInjective(f, g, name);
    AddChoiceFrame(t, name, g, cands, name, f);
    PseudoEventNotEvent(f, name, NoChoiceFound);
    AddChoiceFrame(t, name, g, cands, PseudoEvent(ps, NoChoiceFound), ps);
    forall c | c in cands
      ensures Lookup(r.events, PseudoEvent(ps, c), ps) == Some(Dest(c, ps))
    {
      PseudoEventNotEvent(f, name, c);
      AddChoiceFrame(t, name, g, cands, PseudoEvent(ps, c), ps);
    }
  }

  lemma AddChoicePreservesLinks(t: Tables, name: string, f: string, g: string, cands: seq<string>)
    requires ChoiceLinksRegistered(t, name, f, cands)
    ensures ChoiceLinksRegistered(AddChoice(t, name, g, cands), name, f, cands)
  {
    var r := AddChoice(t, name, g, cands);
    var ps := PseudoState(f, name);
    AddChoicePseudoEvents(t, name, g, cands, PseudoEvent(ps, NoChoiceFound));
    forall c | c in cands
      ensures MapGet(r.pseudoEvents, PseudoEvent(ps, c)) == Some(name)
    {
      AddChoicePseudoEvents(t, name, g, cands, PseudoEvent(ps, c));
    }
  }

  /** Every origin of a list-valued `from` gets its pseudo-state, pseudo-events and choice callback. */
  lemma {:induction false} AddChoicesRegister(t: Tables, name: string, fs: seq<string>, cands: seq<string>, f: string)
    requires f in fs
    ensures ChoiceRegistered(AddChoices(t, name, fs, cands), name, f, cands)
    decreases |fs|
  {
    var init := fs[..|fs| - 1];
    var g := fs[|fs| - 1];
    if f == g {
      AddChoiceRegisters(AddChoices(t, name, init, cands), name, g, cands);
    } else {
      assert f in init;
      AddChoicesRegister(t, name, init, cands, f);
      AddChoicePreserves(AddChoices(t, name, init, cands), name, f, g, cands);
    }
  }

  lemma EnsureRowLookup(ev: EventTable, name: string, n: string, s: string)
    ensures Lookup(EnsureRow(ev, name), n, s) == Lookup(ev, n, s)
    ensures name in EnsureRow(ev, name)
  {
  }

  /** addEvent of a conditional event: it never fails, and every origin is wired to its choice. */
  lemma ConditionalEventRegisters(t: Tables, e: EventSpec)
    requires IsConditional(e)
    ensures AddEvent(t, e).Success?
    ensures e.name in AddEvent(t, e).value.events
    ensures forall f :: f in ConditionalOrigins(e.from) ==>
              ChoiceRegistered(AddEvent(t, e).value, e.name, f, e.to.states)
  {
    var t0 := t.(events := EnsureRow(t.events, e.name));
    forall f | f in ConditionalOrigins(e.from)
      ensures ChoiceRegistered(AddEvent(t, e).value, e.name, f, e.to.states)
    {
      AddChoicesRegister(t0, e.name, ConditionalOrigins(e.from), e.to.states, f);
    }
    AddChoicesRows(t0, e.name, ConditionalOrigins(e.from), e.to.states);
  }

  /** Rows are never removed by the origins loop. */
  lemma {:induction false} AddChoicesRows(t: Tables, name: string, fs: seq<string>, cands: seq<string>)
    ensures t.events.Keys <= AddChoices(t, name, fs, cands).events.Keys
    decreases |fs|
  {
    if fs != [] {
      var p := AddChoices(t, name, fs[..|fs| - 1], cands);
      AddChoicesRows(t, name, fs[..|fs| - 1], cands);
      forall n | n in p.events
        ensures n in AddChoices(t, name, fs, cands).events
      {
        AddChoiceRows(p, name, fs[|fs| - 1], cands, n);
      }
    }
  }

  /**
   * addEvent of an event without condition: a list-valued `to` is rejected as
   * ambiguous; otherwise `events[name][f] = to || f` for every origin and no
   * other entry or table changes.
   */
  lemma PlainEventSpec(t: Tables, e: EventSpec, n: string, s: string)
    requires !IsConditional(e)
    ensures AddEvent(t, e).Failure? <==> e.to.ToList?
    ensures AddEvent(t, e).Failure? ==> AddEvent(t, e).error == AmbiguousTransition(e.name)
    ensures AddEvent(t, e).Success? ==>
      var r := AddEvent(t, e).value;
      && e.name in r.events
      && Lookup(r.events, n, s)
         == (if n == e.name && s in Origins(e.from) then Some(Dest(TargetName(e.to), s)) else Lookup(t.events, n, s))
      && r.states == t.states && r.pseudoStates == t.pseudoStates
      && r.pseudoEvents == t.pseudoEvents && r.callbacks == t.callbacks
  {
    if !e.to.ToList? {
      PlainEventLookup(EnsureRow(t.events, e.name), e.name, Origins(e.from), TargetName(e.to), n, s);
    }
  }

  // ---------------------------------------------------------------------------
  // Closure: every origin and destination in the event table is a state
  // ---------------------------------------------------------------------------

  /** Every `events[n][s] = v` has both `s` and `v` registered in the state table. */
  ghost predicate Closed(t: Tables)
  {
    forall n, s :: Lookup(t.events, n, s).Some? ==> s in t.states && Lookup(t.events, n, s).value in t.states
  }

  lemma {:induction false} AddChoicesStates(t: Tables, name: string, fs: seq<string>, cands: seq<string>)
    ensures t.states.Keys <= AddChoices(t, name, fs, cands).states.Keys
    ensures forall f :: f in fs ==> PseudoState(f, name) in AddChoices(t, name, fs, cands).states
    decreases |fs|
  {
    if fs != [] {
      var p := AddChoices(t, name, fs[..|fs| - 1], cands);
      AddChoicesStates(t, name, fs[..|fs| - 1], cands);
      AddChoiceStates(p, name, fs[|fs| - 1], cands);
      AddStatesSpec(p.states, [PseudoState(fs[|fs| - 1], name)]);
    }
  }

  /** Each entry the origins loop sets has its ends among the states, the non-empty origins or the candidates. */
  lemma {:induction false} AddChoicesEntries(t: Tables, name: string, fs: seq<string>, cands: seq<string>,
                                             n: string, s: string)
    ensures var r := AddChoices(t, name, fs, cands);
      Lookup(r.events, n, s).Some? && Lookup(r.events, n, s) != Lookup(t.events, n, s) ==>
        && (s in r.states || (s in fs && s != ""))
        && (Lookup(r.events, n, s).value in r.states
            || (Lookup(r.events, n, s).value in fs && Lookup(r.events, n, s).value != "")
            || Lookup(r.events, n, s).value in cands)
    decreases |fs|
  {
    if fs != [] {
      var init := fs[..|fs| - 1];
      var g := fs[|fs| - 1];
      var p := AddChoices(t, name, init, cands);
      var pg := PseudoState(g, name);
      AddChoicesEntries(t, name, init, cands, n, s);
      AddChoicesStates(t, name, fs, cands);
      AddChoiceStates(p, name, g, cands);
      AddStatesSpec(p.states, [pg]);
      AddChoiceLookup(p, name, g, cands, n, s);
    }
  }

  /** The entries a conditional event adds have their ends among the states init registers for it. */
  lemma ConditionalEntriesClosed(t: Tables, e: EventSpec, n: string, s: string)
    requires Closed(t)
    requires IsConditional(e)
    requires Lookup(InitOne(t, e).value.events, n, s).Some?
    ensures s in InitOne(t, e).value.states && Lookup(InitOne(t, e).value.events, n, s).value in InitOne(t, e).value.states
  {
    var t1 := AddChoices(t.(events := EnsureRow(t.events, e.name)), e.name, ConditionalOrigins(e.from), e.to.states);
    assert AddEvent(t, e) == Success(t1);
    var st1 := AddStates(t1.states, Origins(e.from));
    assert InitOne(t, e) == Success(t1.(states := AddStates(st1, Targets(e.to))));
    ChoiceEntryEnds(t, e, n, s);
    var v := Lookup(t1.events, n, s).value;
    AddStatesHas(t1.states, Origins(e.from), s);
    AddStatesHas(st1, Targets(e.to), s);
    AddStatesHas(t1.states, Origins(e.from), v);
    AddStatesHas(st1, Targets(e.to), v);
  }

  /** Where the ends of an entry of the origins loop are: among its states, the origins or the candidates. */
  lemma ChoiceEntryEnds(t: Tables, e: EventSpec, n: string, s: string)
    requires Closed(t)
    requires IsConditional(e)
    ensures var t1 := AddChoices(t.(events := EnsureRow(t.events, e.name)), e.name, ConditionalOrigins(e.from), e.to.states);
      Lookup(t1.events, n, s).Some? ==>
        && (s in t1.states || s in Origins(e.from))
        && (Lookup(t1.events, n, s).value in t1.states || Lookup(t1.events, n, s).value in Origins(e.from)
            || Lookup(t1.events, n, s).value in Targets(e.to))
  {
    var t0 := t.(events := EnsureRow(t.events, e.name));
    var fs := ConditionalOrigins(e.from);
    var t1 := AddChoices(t0, e.name, fs, e.to.states);
    AddChoicesStates(t0, e.name, fs, e.to.states);
    EnsureRowLookup(t.events, e.name, n, s);
    AddChoicesEntries(t0, e.name, fs, e.to.states, n, s);
    assert e.to.states == Targets(e.to);
    assert forall x :: x in fs && x != "" ==> x in Origins(e.from);
    if Lookup(t1.events, n, s).Some? && Lookup(t1.events, n, s) == Lookup(t.events, n, s) {
      assert s in t.states && Lookup(t.events, n, s).value in t.states;
    }
  }

  lemma AddStatesHas(st: map<string, set<LoopKey>>, names: seq<string>, x: string)
    ensures x in st || x in names ==> x in AddStates(st, names)
  {
    AddStatesSpec(st, names);
  }

  /** The entries a plain event adds have their ends among the states init registers for it. */
  lemma PlainEntriesClosed(t: Tables, e: EventSpec, n: string, s: string)
    requires Closed(t)
    requires !IsConditional(e)
    requires InitOne(t, e).Success?
    requires Lookup(InitOne(t, e).value.events, n, s).Some?
    ensures s in InitOne(t, e).value.states && Lookup(InitOne(t, e).value.events, n, s).value in InitOne(t, e).value.states
  {
    var t1 := AddEvent(t, e).value;
    AddStatesSpec(t1.states, Origins(e.from));
    AddStatesSpec(AddStates(t1.states, Origins(e.from)), Targets(e.to));
    PlainEventSpec(t, e, n, s);
  }

  /** One iteration of init keeps the tables closed. */
  lemma InitOneClosed(t: Tables, e: EventSpec)
    requires Closed(t)
    requires InitOne(t, e).Success?
    ensures Closed(InitOne(t, e).value)
  {
    var r := InitOne(t, e).value;
    forall n, s | Lookup(r.events, n, s).Some?
      ensures s in r.states && Lookup(r.events, n, s).value in r.states
    {
      if IsConditional(e) {
        ConditionalEntriesClosed(t, e, n, s);
      } else {
        PlainEntriesClosed(t, e, n, s);
      }
    }
  }

  /** init never leaves a dangling origin or destination. */
  lemma {:induction false} InitClosed(t: Tables, es: seq<EventSpec>)
    requires Closed(t)
    requires Init(t, es).Success?
    ensures Closed(Init(t, es).value)
    decreases |es|
  {
    if es != [] {
      InitClosed(t, es[..|es| - 1]);
      InitOneClosed(Init(t, es[..|es| - 1]).value, es[|es| - 1]);
    }
  }

  /** A compiled configuration is closed. */
  lemma BuildClosed(es: seq<EventSpec>, userHooks: set<string>)
    requires Build(es, userHooks).Success?
    ensures Closed(Build(es, userHooks).value)
  {
    InitClosed(Empty(userHooks), es);
  }

  // ---------------------------------------------------------------------------
  // A compiled machine starts with no self-loop in progress
  // ---------------------------------------------------------------------------

  /** Every registered state's set of self-loop ids is empty. */
  predicate Idle(st: map<string, set<LoopKey>>)
  {
    forall x :: x in st ==> st[x] == {}
  }

  lemma AddStatesIdle(st: map<string, set<LoopKey>>, names: seq<string>)
    requires Idle(st)
    ensures Idle(AddStates(st, names))
  {
    AddStatesSpec(st, names);
  }

  lemma {:induction false} AddChoicesIdle(t: Tables, name: string, fs: seq<string>, cands: seq<string>)
    requires Idle(t.states)
    ensures Idle(AddChoices(t, name, fs, cands).states)
    decreases |fs|
  {
    if fs != [] {
      var p := AddChoices(t, name, fs[..|fs| - 1], cands);
      AddChoicesIdle(t, name, fs[..|fs| - 1], cands);
      AddChoiceStates(p, name, fs[|fs| - 1], cands);
      AddStatesIdle(p.states, [PseudoState(fs[|fs| - 1], name)]);
    }
  }

  lemma InitOneIdle(t: Tables, e: EventSpec)
    requires Idle(t.states)
    requires InitOne(t, e).Success?
    ensures Idle(InitOne(t, e).value.states)
  {
    var t1 := AddEvent(t, e).value;
    if IsConditional(e) {
      AddChoicesIdle(t.(events := EnsureRow(t.events, e.name)), e.name, ConditionalOrigins(e.from), e.to.states);
    } else {
      PlainEventSpec(t, e, "", "");
    }
    AddStatesIdle(t1.states, Origins(e.from));
    AddStatesIdle(AddStates(t1.states, Origins(e.from)), Targets(e.to));
  }

  lemma {:induction false} InitIdle(t: Tables, es: seq<EventSpec>)
    requires Idle(t.states)
    requires Init(t, es).Success?
    ensures Idle(Init(t, es).value.states)
    decreases |es|
  {
    if es != [] {
      InitIdle(t, es[..|es| - 1]);
      InitOneIdle(Init(t, es[..|es| - 1]).value, es[|es| - 1]);
    }
  }

  /** Every state of a compiled configuration starts with an empty set of self-loop ids. */
  lemma BuildIdle(es: seq<EventSpec>, userHooks: set<string>)
    requires Build(es, userHooks).Success?
    ensures Idle(Build(es, userHooks).value.states)
  {
    InitIdle(Empty(userHooks), es);
  }

  // ---------------------------------------------------------------------------
  // The rows one configured event writes, for reading off a fixed configuration
  // ---------------------------------------------------------------------------

  /** One init iteration for an event with a scalar (or absent) `to`: its own row, and new states only. */
  lemma PlainStepSpec(t: Tables, e: EventSpec, n: string, s: string)
    requires !e.to.ToList?
    ensures InitOne(t, e).Success?
    ensures Lookup(InitOne(t, e).value.events, n, s)
            == if n == e.name && s in Origins(e.from) then Some(Dest(TargetName(e.to), s)) else Lookup(t.events, n, s)
    ensures t.states.Keys <= InitOne(t, e).value.states.Keys
    ensures InitOne(t, e).value.pseudoStates == t.pseudoStates
    ensures InitOne(t, e).value.pseudoEvents == t.pseudoEvents
    ensures InitOne(t, e).value.callbacks == t.callbacks
  {
    PlainEventSpec(t, e, n, s);
    var t1 := AddEvent(t, e).value;
    AddStatesSpec(t1.states, Origins(e.from));
    AddStatesSpec(AddStates(t1.states, Origins(e.from)), Targets(e.to));
  }

  /** The row of a conditional event: every non-empty origin leads to its pseudo-state. */
  lemma {:induction false} AddChoicesNameRow(t: Tables, name: string, fs: seq<string>, cands: seq<string>, s: string)
    ensures Lookup(AddChoices(t, name, fs, cands).events, name, s)
            == if s in fs && s != "" then Some(PseudoState(s, name)) else Lookup(t.events, name, s)
    decreases |fs|
  {
    if fs != [] {
      var init := fs[..|fs| - 1];
      var g := fs[|fs| - 1];
      var ps := PseudoState(g, name);
      AddChoicesNameRow(t, name, init, cands, s);
      AddChoiceLookup(AddChoices(t, name, init, cands), name, g, cands, name, s);
      assert |ps| == |g| + 2 + |name|;
      assert !IsCandidateEvent(name, ps, cands);
      assert |PseudoEvent(ps, NoChoiceFound)| > |name|;
      assert s in fs <==> s in init || s == g;
    }
  }

  /** A name shorter than any pseudo-event of `name` keeps its rows when `name`'s choices are added. */
  lemma {:induction false} AddChoicesShortFrame(t: Tables, name: string, fs: seq<string>, cands: seq<string>,
                                                n: string, s: string)
    requires n != name && |n| < |name| + 4
    ensures Lookup(AddChoices(t, name, fs, cands).events, n, s) == Lookup(t.events, n, s)
    decreases |fs|
  {
    if fs != [] {
      var init := fs[..|fs| - 1];
      var g := fs[|fs| - 1];
      var ps := PseudoState(g, name);
      AddChoicesShortFrame(t, name, init, cands, n, s);
      AddChoiceLookup(AddChoices(t, name, init, cands), name, g, cands, n, s);
      assert |ps| == |g| + 2 + |name|;
      assert !IsCandidateEvent(n, ps, cands);
      assert |PseudoEvent(ps, NoChoiceFound)| > |n|;
    }
  }

  /** One init iteration for a conditional event: its own row, and the rows of shorter names kept. */
  lemma ConditionalStepRow(t: Tables, e: EventSpec, n: string, s: string)
    requires IsConditional(e)
    ensures InitOne(t, e).Success?
    ensures n == e.name ==>
      Lookup(InitOne(t, e).value.events, n, s)
      == if s in ConditionalOrigins(e.from) && s != "" then Some(PseudoState(s, e.name)) else Lookup(t.events, n, s)
    ensures n != e.name && |n| < |e.name| + 4 ==> Lookup(InitOne(t, e).value.events, n, s) == Lookup(t.events, n, s)
  {
    ConditionalEventRegisters(t, e);
    var t0 := t.(events := EnsureRow(t.events, e.name));
    EnsureRowLookup(t.events, e.name, n, s);
    if n == e.name {
      AddChoicesNameRow(t0, e.name, ConditionalOrigins(e.from), e.to.states, s);
    } else if |n| < |e.name| + 4 {
      AddChoicesShortFrame(t0, e.name, ConditionalOrigins(e.from), e.to.states, n, s);
    }
  }

  /** Registering more states keeps a registered choice registered. */
  lemma StatesKeepChoice(t: Tables, st: map<string, set<LoopKey>>, name: string, f: string, cands: seq<string>)
    requires t.states.Keys <= st.Keys
    requires ChoiceRegistered(t, name, f, cands)
    ensures ChoiceRegistered(t.(states := st), name, f, cands)
  {
  }

  /** One init iteration for a conditional event registers the choice of every origin. */
  lemma ConditionalStepChoice(t: Tables, e: EventSpec, f: string)
    requires IsConditional(e) && f in ConditionalOrigins(e.from)
    ensures InitOne(t, e).Success?
    ensures ChoiceRegistered(InitOne(t, e).value, e.name, f, e.to.states)
  {
    ConditionalEventRegisters(t, e);
    var t1 := AddEvent(t, e).value;
    AddStatesSpec(t1.states, Origins(e.from));
    AddStatesSpec(AddStates(t1.states, Origins(e.from)), Targets(e.to));
    StatesKeepChoice(t1, AddStates(AddStates(t1.states, Origins(e.from)), Targets(e.to)), e.name, f, e.to.states);
  }

  /** A later plain event whose name is shorter than the choice's pseudo-events leaves the choice registered. */
  lemma PlainStepKeepsChoice(t: Tables, e: EventSpec, name: string, f: string, cands: seq<string>)
    requires !e.to.ToList? && e.name != name && |e.name| < |f| + |name| + 4
    requires ChoiceRegistered(t, name, f, cands)
    ensures InitOne(t, e).Success?
    ensures ChoiceRegistered(InitOne(t, e).value, name, f, cands)
  {
    var r := InitOne(t, e);
    var ps := PseudoState(f, name);
    PlainStepSpec(t, e, name, f);
    PlainStepSpec(t, e, PseudoEvent(ps, NoChoiceFound), ps);
    forall c | c in cands
      ensures Lookup(r.value.events, PseudoEvent(ps, c), ps) == Lookup(t.events, PseudoEvent(ps, c), ps)
    {
      PlainStepSpec(t, e, PseudoEvent(ps, c), ps);
    }
  }
}
