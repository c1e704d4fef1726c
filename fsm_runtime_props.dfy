/**
 * What the run-time steps promise, stated against the source's own behaviour:
 * the queries, the order of the chain a trigger builds, the ids, the guard and
 * bookkeeping as written, revert, choice resolution and the return value.
 */
module FsmRuntimeProps {

  import opened Wrappers
  import opened FsmTables
  import opened FsmTableProps
  import opened FsmRuntime

  // ---------------------------------------------------------------------------
  // Queries
  // ---------------------------------------------------------------------------

  /** In a closed table a legal event starts from a registered state and leads to one. */
  lemma CanLeadsToState(t: Tables, current: string, name: string)
    requires Closed(t) && Can(t, current, name)
    ensures current in t.states && Lookup(t.events, name, current).value in t.states
    ensures !Cannot(t, current, name)
  {
  }

  /** `can` fails for an unknown event, a missing origin and an empty destination alike. */
  lemma CannotCases(t: Tables, current: string, name: string)
    ensures name !in t.events ==> Cannot(t, current, name)
    ensures name in t.events && current !in t.events[name] ==> Cannot(t, current, name)
    ensures name in t.events && current in t.events[name] ==>
      (Can(t, current, name) <==> t.events[name][current] != "")
  {
  }

  /** `isFinal` with no argument, or an empty one, asks about the current state. */
  lemma IsFinalSpec(final: Final, current: string, state: string)
    ensures IsFinal(final, current, None) == IsFinal(final, current, Some(current))
    ensures IsFinal(final, current, Some("")) == IsFinal(final, current, None)
    ensures state != "" ==> (IsFinal(final, current, Some(state)) <==>
      (final.FinalOne? && final.state == state) || (final.FinalMany? && state in final.states))
    ensures final.NoFinal? ==> !IsFinal(final, current, Some(state))
  {
  }

  /** A new instance sits in `initial`, unlocked, with nothing in flight and nothing emitted. */
  lemma InitialSpec(d: Def)
    ensures Is(Initial(d), d.initial) && !Initial(d).inTransition
    ensures Initial(d).inflight == map[] && Initial(d).emitted == []
    ensures forall x :: HasState(Initial(d), x) <==> x in d.t.states
  {
  }

  // ---------------------------------------------------------------------------
  // The chain of a trigger
  // ---------------------------------------------------------------------------

  /** A hook stage of the leave/enter half: one of the five hooks buildEvent consults before entering. */
  predicate BeforeStage(t: Tables, name: string, from: string, to: Option<string>, st: Stage)
  {
    || st == LeaveState
    || (st.Call? && st.key in t.callbacks && st.hook == t.callbacks[st.key]
        && (st.key == CallbackPrefix + "leave" + from || st.key == CallbackPrefix + "leave"
            || st.key == CallbackPrefix + name || st.key == CallbackPrefix + "enter" + ToKey(to)
            || (st.key == CallbackPrefix + "enter" && !IsPseudoState(t, ToKey(to)))))
  }

  /** A hook stage after entering: `onentered<to>`, or `onentered` when `to` is not a pseudo-state. */
  predicate AfterStage(t: Tables, to: Option<string>, st: Stage)
  {
    st.Call? && st.key in t.callbacks && st.hook == t.callbacks[st.key]
    && (st.key == CallbackPrefix + "entered" + ToKey(to)
        || (st.key == CallbackPrefix + "entered" && !IsPseudoState(t, ToKey(to))))
  }

  /**
   * The chain validates, then guards, then runs the leave hooks, the leave
   * bookkeeping, `on<name>` and the enter hooks, then enters, then runs the
   * entered hooks; only configured hooks appear.
   */
  lemma StagesOrder(t: Tables, name: string, from: string, to: Option<string>)
    ensures var st := Stages(t, name, from, to);
      exists b :: 2 <= b < |st|
        && st[..2] == [Validate, Guard] && st[b] == EnterState
        && LeaveState in st[2..b]
        && (forall i :: 2 <= i < b ==> BeforeStage(t, name, from, to, st[i]))
        && (forall i :: b < i < |st| ==> AfterStage(t, to, st[i]))
  {
    var st := Stages(t, name, from, to);
    var before := BeforeEnter(t, name, from, to);
    var after := AfterEnter(t, name, to);
    var b := 2 + |before|;
    StagesLayout(before, after);
    BeforeStages(t, name, from, to);
    AfterStages(t, name, to);
    assert 2 <= b < |st| && st[..2] == [Validate, Guard] && st[b] == EnterState && LeaveState in st[2..b];
  }

  /** Where the parts of a stage list sit. */
  lemma StagesLayout(before: seq<Stage>, after: seq<Stage>)
    ensures var st := [Validate, Guard] + before + [EnterState] + after;
      && |st| == |before| + |after| + 3
      && st[..2] == [Validate, Guard] && st[2 + |before|] == EnterState
      && st[2..2 + |before|] == before
      && (forall i :: 2 <= i < 2 + |before| ==> st[i] == before[i - 2])
      && (forall i :: 2 + |before| < i < |st| ==> st[i] == after[i - |before| - 3])
  {
    var st := [Validate, Guard] + before + [EnterState] + after;
    assert st[2..2 + |before|] == before;
    assert st[..2] == [Validate, Guard];
  }

  lemma BeforeStages(t: Tables, name: string, from: string, to: Option<string>)
    ensures LeaveState in BeforeEnter(t, name, from, to)
    ensures forall st :: st in BeforeEnter(t, name, from, to) ==> BeforeStage(t, name, from, to, st)
  {
  }

  lemma AfterStages(t: Tables, name: string, to: Option<string>)
    ensures forall st :: st in AfterEnter(t, name, to) ==> AfterStage(t, to, st)
  {
  }

  // ---------------------------------------------------------------------------
  // Ids, the guard and the bookkeeping as written
  // ---------------------------------------------------------------------------

  /** As written only a self-loop gets an id; corrected, every NOOP does. The id is the trigger's own. */
  lemma IdSpec(token: nat, from: string, to: Option<string>)
    ensures IdFor(AsWritten, token, from, to).Some? <==> to == Some(from)
    ensures IdFor(Corrected, token, from, to).Some? <==> TypeOf(from, to) == Noop
    ensures IdFor(AsWritten, token, from, to).Some? ==> IdFor(AsWritten, token, from, to) == Some(token)
    ensures IdFor(Corrected, token, from, to).Some? ==> IdFor(Corrected, token, from, to) == Some(token)
  {
  }

  /** Whether a guard step let invocation `token` through. */
  predicate Passed(r: Snap, token: nat)
  {
    token in r.inflight && r.inflight[token].status == Running
  }

  /**
   * canTransition as written: a NOOP passes unless the lock is set; an INTER
   * passes only from a known state with no outstanding self-loops and no lock,
   * and then sets the lock; a GENERAL always passes; nothing else changes.
   */
  lemma GuardAsWritten(d: Def, s: Snap, token: nat)
    requires token in s.inflight && s.inflight[token].status == Running
    ensures var r := GuardStep(AsWritten, d, s, token, s.inflight[token]);
      && r.current == s.current && r.states == s.states && r.responses == s.responses && r.emitted == s.emitted
      && (Passed(r, token) <==> match s.inflight[token].Kind()
            case Noop => !s.inTransition
            case Inter => s.current in s.states && s.states[s.current] == {} && !s.inTransition
            case General => true)
      && r.inTransition == (s.inTransition || (Passed(r, token) && s.inflight[token].Kind() == Inter))
      && (!Passed(r, token) ==> r.inflight[token].status == Failing(GuardError(d, s, s.inflight[token].Kind())))
  {
  }

  /** The error a failed guard raises, in the order canTransition tests. */
  function GuardError(d: Def, s: Snap, k: Kind): (e: Error)
    ensures e == OtherError <==> k == Inter && s.current !in s.states
  {
    if k == Inter && s.current !in s.states then OtherError
    else if k == Inter && s.states[s.current] == {} then FsmError(InterStarted, d.instance)
    else FsmError(TransitionPending, d.instance)
  }

  /** onleavestate as written: a NOOP adds its id to the current state's set; nothing else changes. */
  lemma LeaveAsWritten(s: Snap, token: nat)
    requires token in s.inflight && s.current in s.states
    ensures var r := LeaveStep(AsWritten, s, token, s.inflight[token]);
      && r.current == s.current && r.inTransition == s.inTransition && r.responses == s.responses
      && r.states == (if s.inflight[token].Kind() == Noop
                      then s.states[s.current := s.states[s.current] + {s.inflight[token].id}] else s.states)
      && r.inflight[token].pc == s.inflight[token].pc + 1
  {
  }

  /**
   * onenterstate as written: a NOOP removes its id from the current state's set;
   * any other transition clears the lock, moves to its destination and emits it
   * unless it is a pseudo-state; nothing else changes.
   */
  lemma EnterAsWritten(d: Def, s: Snap, token: nat)
    requires token in s.inflight && s.current in s.states
    ensures var inv := s.inflight[token];
      var r := EnterStep(AsWritten, d, s, token, inv);
      && r.responses == s.responses && r.nextToken == s.nextToken
      && (inv.Kind() == Noop ==>
            && r.current == s.current && r.inTransition == s.inTransition && r.emitted == s.emitted
            && r.states == s.states[s.current := s.states[s.current] - {inv.id}])
      && (inv.Kind() != Noop ==>
            && r.current == inv.to.value && !r.inTransition && r.states == s.states
            && r.emitted == s.emitted + (if IsPseudoState(d.t, inv.to.value) then [] else [inv.to.value]))
  {
  }

  // ---------------------------------------------------------------------------
  // revert
  // ---------------------------------------------------------------------------

  /**
   * revert as written: this instance's own invalid-event error skips the
   * cleanup; otherwise an INTER clears the lock and a NOOP deletes its id from
   * the current state. The original error is rethrown, unless the cleanup
   * itself throws (the current state is unknown).
   */
  lemma RevertAsWritten(d: Def, s: Snap, inv: Inv, err: Error)
    ensures var (r, e) := Revert(AsWritten, d, s, inv, err);
      && (SkipsCleanup(d, err) ==> r == s && e == err)
      && (!SkipsCleanup(d, err) && inv.Kind() == Inter ==> r == s.(inTransition := false) && e == err)
      && (!SkipsCleanup(d, err) && inv.Kind() == Noop && s.current in s.states ==>
            r == s.(states := s.states[s.current := s.states[s.current] - {inv.id}]) && e == err)
      && (!SkipsCleanup(d, err) && inv.Kind() == Noop && s.current !in s.states ==> r == s && e == OtherError)
      && (inv.Kind() == General ==> r == s && e == err)
  {
  }

  /** Corrected revert always rethrows the original error and touches only what the invocation holds. */
  lemma RevertCorrected(d: Def, s: Snap, inv: Inv, err: Error)
    ensures var (r, e) := Revert(Corrected, d, s, inv, err);
      && e == err
      && r.current == s.current && r.inflight == s.inflight && r.responses == s.responses
      && (inv.locked ==> !r.inTransition)
      && (!inv.locked ==> r.inTransition == s.inTransition)
      && (forall x :: x in s.states <==> x in r.states)
      && (forall x :: x in s.states && Some(x) != inv.slot ==> r.states[x] == s.states[x])
  {
  }

  /** Cleanup is skipped exactly for an invalid-event FsmError from this same instance. */
  lemma SkipsCleanupSpec(d: Def, err: Error)
    ensures SkipsCleanup(d, err) <==> err.FsmError? && err.kind == InvalidEvent && err.instance == d.instance
  {
  }

  // ---------------------------------------------------------------------------
  // Choice resolution
  // ---------------------------------------------------------------------------

  /** A number picks the candidate at that index if there is one; a string picks itself if it is a candidate. */
  lemma ResolveSpec(cands: seq<string>, pick: Pick)
    ensures Resolve(cands, pick).Some? ==> Resolve(cands, pick).value in cands
    ensures pick.Index? ==> (Resolve(cands, pick).Some? <==> 0 <= pick.i < |cands|)
    ensures pick.Index? && 0 <= pick.i < |cands| ==> Resolve(cands, pick) == Some(cands[pick.i])
    ensures pick.Named? ==> (Resolve(cands, pick) == Some(pick.state) <==> pick.state in cands)
    ensures pick.Named? && pick.state !in cands ==> Resolve(cands, pick) == None
    ensures pick.NoPick? ==> Resolve(cands, pick) == None
  {
  }

  /**
   * In tables where the choice of `name` at `f` is registered, the pseudo-event
   * the choice callback fires leads from the pseudo-state to the picked
   * candidate, or back to `f` when nothing was picked.
   */
  lemma ChoiceLeadsTo(t: Tables, name: string, f: string, cands: seq<string>, pick: Pick)
    requires ChoiceRegistered(t, name, f, cands)
    ensures var ps := PseudoState(f, name);
      var choice := Resolve(cands, pick);
      && (choice.Some? ==> Lookup(t.events, ChoiceEvent(name, f, choice), ps) == Some(Dest(choice.value, ps)))
      && (choice.None? && NoChoiceFound !in cands ==> Lookup(t.events, ChoiceEvent(name, f, choice), ps) == Some(Dest(f, ps)))
      && MapGet(t.pseudoEvents, ChoiceEvent(name, f, choice)) == Some(name)
  {
    ResolveSpec(cands, pick);
  }

  /**
   * The choice callback fires its pseudo-event as a nested trigger: a chosen candidate's with the
   * invocation's arguments, the no-choice one with none; the callback then waits for it.
   */
  lemma ChoiceSpawnsChild(sem: Semantics, d: Def, s: Snap, token: nat, inv: Inv, h: Hook, ctx: Ctx, pick: Pick)
    requires Fits(h, Chose(pick)) && token != s.nextToken
    ensures var choice := Resolve(h.candidates, pick);
      var ev := ChoiceEvent(h.event, h.origin, choice);
      var r := CallStep(sem, d, s, token, inv, h, ctx, Chose(pick));
      ev in d.t.events ==>
        && s.nextToken in r.inflight
        && r.inflight[s.nextToken].name == ev
        && r.inflight[s.nextToken].args == (if choice.None? then [] else inv.args)
        && r.inflight[s.nextToken].parent == Some(token)
        && r.inflight[token].status == Awaiting(s.nextToken, choice.None?)
  {
  }

  /** After the no-choice event settles, the waiting choice callback fails with "Choice index out of range". */
  lemma NoChoiceFails(d: Def, s: Snap, parent: nat, child: nat, ret: Return)
    requires parent in s.inflight && s.inflight[parent].status == Awaiting(child, true)
    ensures Resume(d, s, Some(parent), child, Resolved(ret)).inflight[parent].status
            == Failing(FsmError(ChoiceOutOfRange, d.instance))
  {
  }

  /** A resolved nested trigger lets its waiting caller go on with its next stage. */
  lemma ResumeContinues(d: Def, s: Snap, parent: nat, child: nat, ret: Return)
    requires parent in s.inflight && s.inflight[parent].status == Awaiting(child, false)
    ensures var p := Resume(d, s, Some(parent), child, Resolved(ret)).inflight[parent];
      p.status == Running && p.pc == s.inflight[parent].pc + 1
  {
  }

  // ---------------------------------------------------------------------------
  // returnValue
  // ---------------------------------------------------------------------------

  /** The promise resolves with a non-empty `res` if one was set, and with the options object otherwise. */
  lemma ReturnValueSpec(s: Snap, inv: Inv)
    ensures var res := if inv.sharedRes then MapGet(s.responses, inv.name) else inv.res;
      && (ReturnValue(s, inv).Res? <==> res.Some? && res.value != "")
      && (ReturnValue(s, inv).Res? ==> ReturnValue(s, inv).value == res.value)
  {
  }

  // ---------------------------------------------------------------------------
  // Runs of actions
  // ---------------------------------------------------------------------------

  /** Running one more action after a run. */
  lemma {:induction false} RunSnoc(sem: Semantics, d: Def, s: Snap, acts: seq<Action>, a: Action)
    requires Run(sem, d, s, acts).Some?
    ensures Run(sem, d, s, acts + [a]) == Apply(sem, d, Run(sem, d, s, acts).value, a)
    decreases |acts|
  {
    if acts == [] {
      assert acts + [a] == [a];
      assert [a][1..] == [];
    } else {
      assert (acts + [a])[1..] == acts[1..] + [a];
      RunSnoc(sem, d, Apply(sem, d, s, acts[0]).value, acts[1..], a);
    }
  }

  /** A run of `xs + ys` is a run of `xs` followed by one of `ys`. */
  lemma {:induction false} RunAppend(sem: Semantics, d: Def, s: Snap, xs: seq<Action>, ys: seq<Action>)
    requires Run(sem, d, s, xs).Some?
    ensures Run(sem, d, s, xs + ys) == Run(sem, d, Run(sem, d, s, xs).value, ys)
    decreases |xs|
  {
    if xs == [] {
      assert xs + ys == ys;
    } else {
      assert (xs + ys)[0] == xs[0];
      assert (xs + ys)[1..] == xs[1..] + ys;
      RunAppend(sem, d, Apply(sem, d, s, xs[0]).value, xs[1..], ys);
    }
  }
}
