/**
 * Concrete runs of the engine as written that break the exclusion the guard is
 * meant to enforce. Each run uses a machine with states A and B, the events
 * `go: A -> B`, `back: B -> A` and `stay: A -> A`, and one user hook,
 * `onenteredB`. Under the corrected semantics every run keeps `Exclusive`
 * (FsmExclusion.ReachableExclusive), so none of these outcomes is possible there.
 */
module FsmFindings {

  import opened Wrappers
  import opened FsmTables
  import opened FsmRuntime
  import opened FsmRuntimeProps

  const Hooked: map<string, Hook> := map[CallbackPrefix + "entered" + "B" := UserHook]

  /** The compiled tables of the example machine. */
  const Example: Tables := Tables(
    map["go" := map["A" := "B"], "back" := map["B" := "A"], "stay" := map["A" := "A"]],
    map["A" := {}, "B" := {}],
    map[], map[], Hooked)

  const D: Def := Def(Example, "A", NoFinal, 7)

  /** Any reply does for a stage that is not a callback. */
  const Ok: Reply := Done(None)

  const GoChain: seq<Stage> := [Validate, Guard, LeaveState, EnterState, Call(CallbackPrefix + "entered" + "B", UserHook, OwnOptions)]
  const PlainChain: seq<Stage> := [Validate, Guard, LeaveState, EnterState]

  lemma GoChainIs()
    ensures Stages(Example, "go", "A", Some("B")) == GoChain
  {
    assert CallbackPrefix + "entered" + "B" in Hooked;
  }

  lemma BackChainIs()
    ensures Stages(Example, "back", "B", Some("A")) == PlainChain
  {
    assert (CallbackPrefix + "entered" + "A")[9] == 'A' && (CallbackPrefix + "entered" + "B")[9] == 'B';
    assert CallbackPrefix + "entered" + "A" !in Hooked;
  }

  lemma StayChainIs()
    ensures Stages(Example, "stay", "A", Some("A")) == PlainChain
  {
    assert (CallbackPrefix + "entered" + "A")[9] == 'A' && (CallbackPrefix + "entered" + "B")[9] == 'B';
    assert CallbackPrefix + "entered" + "A" !in Hooked;
  }

  /** The invocations of the three events, at stage `pc`. */
  function Go(pc: nat, status: Status, locked: bool): Inv
  {
    Inv("go", "A", Some("B"), None, [], GoChain, pc, None, false, status, None, locked, None)
  }

  function Back(pc: nat, status: Status, locked: bool): Inv
  {
    Inv("back", "B", Some("A"), None, [], PlainChain, pc, None, false, status, None, locked, None)
  }

  function Stay(token: nat, pc: nat, slot: Option<string>): Inv
  {
    Inv("stay", "A", Some("A"), Some(token), [], PlainChain, pc, None, false, Running, None, false, slot)
  }

  function At(current: string, locked: bool, inA: set<LoopKey>, inB: set<LoopKey>, next: nat,
              inflight: map<nat, Inv>, emitted: seq<string>): Snap
  {
    Snap(current, locked, map["A" := inA, "B" := inB], map[], next, inflight, emitted)
  }

  /** Two INTER invocations stand between their guard and their enter stage at once. */
  predicate TwoInterPassed(s: Snap, a: nat, b: nat)
  {
    && a != b && a in s.inflight && b in s.inflight
    && s.inflight[a].Kind() == Inter && s.inflight[b].Kind() == Inter
    && s.inflight[a].status == Running && s.inflight[b].status == Running
    && s.inflight[a].pc == 2 && s.inflight[b].pc == 2
  }

  // ---------------------------------------------------------------------------
  // A failed guard clears the lock of the running INTER
  // ---------------------------------------------------------------------------

  const LockedGo: Snap := At("A", true, {}, {}, 1, map[0 := Go(2, Running, true)], [])

  /** A `go` from A passes validation and the guard and takes the lock. */
  lemma FirstGoLocks()
    ensures Run(AsWritten, D, Initial(D), [Fire("go", []), Step(0, Ok), Step(0, Ok)]) == Some(LockedGo)
  {
    GoChainIs();
    var s1 := At("A", false, {}, {}, 1, map[0 := Go(0, Running, false)], []);
    var s2 := At("A", false, {}, {}, 1, map[0 := Go(1, Running, false)], []);
    assert Apply(AsWritten, D, Initial(D), Fire("go", [])) == Some(s1);
    assert Can(Example, "A", "go");
    assert s1.inflight[0 := Go(1, Running, false)] == s2.inflight;
    assert Apply(AsWritten, D, s1, Step(0, Ok)) == Some(s2);
    assert s2.inflight[0 := Go(2, Running, true)] == LockedGo.inflight;
    assert Apply(AsWritten, D, s2, Step(0, Ok)) == Some(LockedGo);
    Run3(Initial(D), Fire("go", []), s1, Step(0, Ok), s2, Step(0, Ok), LockedGo);
  }

  const SecondFailed: Snap :=
    At("A", true, {}, {}, 2, map[0 := Go(2, Running, true), 1 := Go(1, Failing(FsmError(InterStarted, 7)), false)], [])

  /** A second `go` fails its guard: "Previous inter-state transition started". */
  lemma SecondGoFails()
    ensures Run(AsWritten, D, LockedGo, [Fire("go", []), Step(1, Ok), Step(1, Ok)]) == Some(SecondFailed)
  {
    GoChainIs();
    var s1 := At("A", true, {}, {}, 2, map[0 := Go(2, Running, true), 1 := Go(0, Running, false)], []);
    var s2 := At("A", true, {}, {}, 2, map[0 := Go(2, Running, true), 1 := Go(1, Running, false)], []);
    assert LockedGo.inflight[1 := Go(0, Running, false)] == s1.inflight;
    assert Apply(AsWritten, D, LockedGo, Fire("go", [])) == Some(s1);
    assert Can(Example, "A", "go");
    assert s1.inflight[1 := Go(1, Running, false)] == s2.inflight;
    assert Apply(AsWritten, D, s1, Step(1, Ok)) == Some(s2);
    assert s2.inflight[1 := Go(1, Failing(FsmError(InterStarted, 7)), false)] == SecondFailed.inflight;
    assert Apply(AsWritten, D, s2, Step(1, Ok)) == Some(SecondFailed);
    Run3(LockedGo, Fire("go", []), s1, Step(1, Ok), s2, Step(1, Ok), SecondFailed);
  }

  const Unlocked: Snap := At("A", false, {}, {}, 2, map[0 := Go(2, Running, true)], [])

  /** Its revert clears the lock, although the first `go` still holds it. */
  lemma FailedRevertUnlocks()
    ensures Settle(AsWritten, D, SecondFailed, 1) == (Unlocked, Rejected(FsmError(InterStarted, 7)))
  {
    assert SecondFailed.inflight - {1} == map[0 := Go(2, Running, true)];
  }

  const TwoPassed: Snap := At("A", true, {}, {}, 3, map[0 := Go(2, Running, true), 2 := Go(2, Running, true)], [])

  /** A third `go` now passes its guard. */
  lemma ThirdGoPasses()
    ensures Run(AsWritten, D, Unlocked, [Fire("go", []), Step(2, Ok), Step(2, Ok)]) == Some(TwoPassed)
  {
    GoChainIs();
    var s1 := At("A", false, {}, {}, 3, map[0 := Go(2, Running, true), 2 := Go(0, Running, false)], []);
    var s2 := At("A", false, {}, {}, 3, map[0 := Go(2, Running, true), 2 := Go(1, Running, false)], []);
    assert Unlocked.inflight[2 := Go(0, Running, false)] == s1.inflight;
    assert Apply(AsWritten, D, Unlocked, Fire("go", [])) == Some(s1);
    assert Can(Example, "A", "go");
    assert s1.inflight[2 := Go(1, Running, false)] == s2.inflight;
    assert Apply(AsWritten, D, s1, Step(2, Ok)) == Some(s2);
    assert s2.inflight[2 := Go(2, Running, true)] == TwoPassed.inflight;
    assert Apply(AsWritten, D, s2, Step(2, Ok)) == Some(TwoPassed);
    Run3(Unlocked, Fire("go", []), s1, Step(2, Ok), s2, Step(2, Ok), TwoPassed);
  }

  /**
   * As written, a second `go` that fails its guard reverts by clearing the
   * lock the first `go` holds, so a third `go` passes its guard while the first
   * is still under way.
   */
  lemma GuardFailureUnlocks()
    ensures Run(AsWritten, D, Initial(D), [Fire("go", []), Step(0, Ok), Step(0, Ok)]) == Some(LockedGo)
    ensures Run(AsWritten, D, LockedGo, [Fire("go", []), Step(1, Ok), Step(1, Ok), Finish(1)]) == Some(Unlocked)
    ensures Settle(AsWritten, D, SecondFailed, 1).1 == Rejected(FsmError(InterStarted, 7))
    ensures Run(AsWritten, D, Unlocked, [Fire("go", []), Step(2, Ok), Step(2, Ok)]) == Some(TwoPassed)
    ensures TwoInterPassed(TwoPassed, 0, 2)
  {
    FirstGoLocks();
    FailedRevertUnlocks();
    SecondGoReverts();
    ThirdGoPasses();
  }

  /** The second `go`, run to the end of its revert. */
  lemma SecondGoReverts()
    ensures Run(AsWritten, D, LockedGo, [Fire("go", []), Step(1, Ok), Step(1, Ok), Finish(1)]) == Some(Unlocked)
  {
    SecondGoFails();
    FailedRevertUnlocks();
    assert CanSettle(SecondFailed, 1);
    assert Apply(AsWritten, D, SecondFailed, Finish(1)) == Some(Unlocked);
    RunSnoc(AsWritten, D, LockedGo, [Fire("go", []), Step(1, Ok), Step(1, Ok)], Finish(1));
    assert [Fire("go", []), Step(1, Ok), Step(1, Ok)] + [Finish(1)] == [Fire("go", []), Step(1, Ok), Step(1, Ok), Finish(1)];
  }

  lemma Run2(s0: Snap, a: Action, s1: Snap, b: Action, s2: Snap)
    requires Apply(AsWritten, D, s0, a) == Some(s1)
    requires Apply(AsWritten, D, s1, b) == Some(s2)
    ensures Run(AsWritten, D, s0, [a, b]) == Some(s2)
  {
    assert Run(AsWritten, D, s2, []) == Some(s2);
    assert [b][1..] == [];
    assert Run(AsWritten, D, s1, [b]) == Some(s2);
    assert [a, b][1..] == [b];
  }

  lemma Run3(s0: Snap, a: Action, s1: Snap, b: Action, s2: Snap, c: Action, s3: Snap)
    requires Apply(AsWritten, D, s0, a) == Some(s1)
    requires Apply(AsWritten, D, s1, b) == Some(s2)
    requires Apply(AsWritten, D, s2, c) == Some(s3)
    ensures Run(AsWritten, D, s0, [a, b, c]) == Some(s3)
  {
    Run2(s1, b, s2, c, s3);
    assert [a, b, c][1..] == [b, c];
  }

  // ---------------------------------------------------------------------------
  // A self-loop registers its id at its leave stage, so it can leak
  // ---------------------------------------------------------------------------

  /**
   * A `stay` (a self-loop on A) passes its guard; a `go` passes its own guard
   * before the `stay` leaves; the `stay` registers in A, the `go` moves to B,
   * and the `stay`'s enter stage then removes its id from B instead of A.
   */
  const LeakTrace: seq<Action> :=
    [Fire("stay", []), Step(0, Ok), Step(0, Ok)]
    + [Fire("go", []), Step(1, Ok), Step(1, Ok)]
    + [Step(0, Ok), Step(1, Ok), Step(1, Ok)]
    + [Step(0, Ok), Finish(0)]
    + [Step(1, Ok), Finish(1)]

  const L1: Snap := At("A", false, {}, {}, 1, map[0 := Stay(0, 0, None)], [])
  const L2: Snap := At("A", false, {}, {}, 1, map[0 := Stay(0, 1, None)], [])
  const L3: Snap := At("A", false, {}, {}, 1, map[0 := Stay(0, 2, None)], [])
  const L4: Snap := At("A", false, {}, {}, 2, map[0 := Stay(0, 2, None), 1 := Go(0, Running, false)], [])
  const L5: Snap := At("A", false, {}, {}, 2, map[0 := Stay(0, 2, None), 1 := Go(1, Running, false)], [])
  const L6: Snap := At("A", true, {}, {}, 2, map[0 := Stay(0, 2, None), 1 := Go(2, Running, true)], [])
  const L7: Snap := At("A", true, {Some(0)}, {}, 2, map[0 := Stay(0, 3, Some("A")), 1 := Go(2, Running, true)], [])
  const L8: Snap := At("A", true, {Some(0)}, {}, 2, map[0 := Stay(0, 3, Some("A")), 1 := Go(3, Running, true)], [])
  const L9: Snap := At("B", false, {Some(0)}, {}, 2, map[0 := Stay(0, 3, Some("A")), 1 := Go(4, Running, false)], ["B"])
  const L10: Snap := At("B", false, {Some(0)}, {}, 2, map[0 := Stay(0, 4, None), 1 := Go(4, Running, false)], ["B"])
  const L11: Snap := At("B", false, {Some(0)}, {}, 2, map[1 := Go(4, Running, false)], ["B"])
  const L12: Snap := At("B", false, {Some(0)}, {}, 2, map[1 := Go(5, Running, false)], ["B"])
  const Leaked: Snap := At("B", false, {Some(0)}, {}, 2, map[], ["B"])

  lemma LeakFireStay()
    ensures Apply(AsWritten, D, Initial(D), Fire("stay", [])) == Some(L1)
  {
    StayChainIs();
    assert Lookup(Example.events, "stay", "A") == Some("A");
    assert Initial(D).inflight[0 := Stay(0, 0, None)] == L1.inflight;
  }

  lemma LeakStayValidates()
    ensures Apply(AsWritten, D, L1, Step(0, Ok)) == Some(L2)
  {
    assert L1.inflight[0].stages[0] == Validate;
    assert Can(Example, "A", "stay");
    assert CanAdvance(L1, 0, Ok);
    assert Stay(0, 0, None).(pc := 1) == Stay(0, 1, None);
    assert L1.inflight[0 := Stay(0, 1, None)] == L2.inflight;
    assert ValidateStep(D, L1, 0, L1.inflight[0]) == L2;
  }

  lemma LeakStayGuard()
    ensures Apply(AsWritten, D, L2, Step(0, Ok)) == Some(L3)
  {
    assert L2.inflight[0].stages[1] == Guard;
    assert L2.inflight[0].Kind() == Noop;
    assert CanAdvance(L2, 0, Ok);
    assert Stay(0, 1, None).(pc := 2) == Stay(0, 2, None);
    assert L2.inflight[0 := Stay(0, 2, None)] == L3.inflight;
    assert GuardStep(AsWritten, D, L2, 0, L2.inflight[0]) == L3;
  }

  lemma LeakFireGo()
    ensures Apply(AsWritten, D, L3, Fire("go", [])) == Some(L4)
  {
    GoChainIs();
    assert Lookup(Example.events, "go", "A") == Some("B");
    assert L3.inflight[1 := Go(0, Running, false)] == L4.inflight;
  }

  lemma LeakGoValidates()
    ensures Apply(AsWritten, D, L4, Step(1, Ok)) == Some(L5)
  {
    GoChainIs();
    assert L4.inflight[1].stages[0] == Validate;
    assert Can(Example, "A", "go");
    assert CanAdvance(L4, 1, Ok);
    assert L4.inflight[1 := Go(1, Running, false)] == L5.inflight;
    assert ValidateStep(D, L4, 1, L4.inflight[1]) == L5;
  }

  lemma LeakGoGuard()
    ensures Apply(AsWritten, D, L5, Step(1, Ok)) == Some(L6)
  {
    GoChainIs();
    assert L5.inflight[1].stages[1] == Guard;
    assert L5.inflight[1].Kind() == Inter;
    assert CanAdvance(L5, 1, Ok);
    assert L5.states["A"] == {};
    assert L5.inflight[1 := Go(2, Running, true)] == L6.inflight;
    assert GuardStep(AsWritten, D, L5, 1, L5.inflight[1]) == L6;
  }

  lemma LeakStayLeaves()
    ensures Apply(AsWritten, D, L6, Step(0, Ok)) == Some(L7)
  {
    assert L6.inflight[0].stages[2] == LeaveState;
    assert L6.inflight[0].Kind() == Noop;
    assert CanAdvance(L6, 0, Ok);
    assert L6.states["A"] + {Some(0)} == {Some(0)};
    assert L6.states["A" := {Some(0)}] == L7.states;
    assert AddKey(L6.states, "A", Some(0)) == L7.states;
    assert L6.inflight[0 := Stay(0, 3, Some("A"))] == L7.inflight;
    assert LeaveStep(AsWritten, L6, 0, L6.inflight[0]) == L7;
  }

  lemma LeakGoLeaves()
    ensures Apply(AsWritten, D, L7, Step(1, Ok)) == Some(L8)
  {
    GoChainIs();
    assert L7.inflight[1].stages[2] == LeaveState;
    assert L7.inflight[1].Kind() == Inter;
    assert CanAdvance(L7, 1, Ok);
    assert L7.inflight[1 := Go(3, Running, true)] == L8.inflight;
    assert LeaveStep(AsWritten, L7, 1, L7.inflight[1]) == L8;
  }

  lemma LeakGoEnters()
    ensures Apply(AsWritten, D, L8, Step(1, Ok)) == Some(L9)
  {
    GoChainIs();
    assert L8.inflight[1].stages[3] == EnterState;
    assert L8.inflight[1].Kind() == Inter;
    assert CanAdvance(L8, 1, Ok);
    assert !IsPseudoState(Example, "B");
    assert L8.inflight[1 := Go(4, Running, false)] == L9.inflight;
    assert EnterStep(AsWritten, D, L8, 1, L8.inflight[1]) == L9;
  }

  lemma LeakStayEnters()
    ensures Apply(AsWritten, D, L9, Step(0, Ok)) == Some(L10)
  {
    assert L9.inflight[0].stages[3] == EnterState;
    assert L9.inflight[0].Kind() == Noop;
    assert CanAdvance(L9, 0, Ok);
    assert L9.states["B"] - {Some(0)} == {};
    assert L9.states["B" := {}] == L9.states;
    assert RemoveKey(L9.states, "B", Some(0)) == L9.states;
    assert L9.inflight[0 := Stay(0, 4, None)] == L10.inflight;
    assert EnterStep(AsWritten, D, L9, 0, L9.inflight[0]) == L10;
  }

  lemma LeakStaySettles()
    ensures Apply(AsWritten, D, L10, Finish(0)) == Some(L11)
  {
    assert CanSettle(L10, 0);
    assert L10.inflight - {0} == L11.inflight;
    assert Settle(AsWritten, D, L10, 0).0 == L11;
  }

  lemma LeakGoHook()
    ensures Apply(AsWritten, D, L11, Step(1, Ok)) == Some(L12)
  {
    GoChainIs();
    assert L11.inflight[1].stages[4] == Call(CallbackPrefix + "entered" + "B", UserHook, OwnOptions);
    assert CanAdvance(L11, 1, Ok);
    assert L11.inflight[1 := Go(5, Running, false)] == L12.inflight;
    assert CallStep(AsWritten, D, L11, 1, L11.inflight[1], UserHook, OwnOptions, Ok) == L12;
  }

  lemma LeakGoSettles()
    ensures Apply(AsWritten, D, L12, Finish(1)) == Some(Leaked)
  {
    GoChainIs();
    assert CanSettle(L12, 1);
    assert L12.inflight - {1} == Leaked.inflight;
    assert Settle(AsWritten, D, L12, 1).0 == Leaked;
  }

  /**
   * As written, once both invocations have settled nothing is in flight, yet
   * A still holds the `stay`'s id: every later INTER out of A fails its guard
   * with "Previous transition pending".
   */
  lemma SelfLoopLeaks()
    ensures Run(AsWritten, D, Initial(D), LeakTrace) == Some(Leaked)
    ensures Leaked.inflight == map[] && Leaked.states["A"] == {Some(0)}
  {
    var p1 := [Fire("stay", []), Step(0, Ok), Step(0, Ok)];
    var p2 := [Fire("go", []), Step(1, Ok), Step(1, Ok)];
    var p3 := [Step(0, Ok), Step(1, Ok), Step(1, Ok)];
    var p4 := [Step(0, Ok), Finish(0)];
    var p5 := [Step(1, Ok), Finish(1)];
    LeakFireStay();
    LeakStayValidates();
    LeakStayGuard();
    Run3(Initial(D), p1[0], L1, p1[1], L2, p1[2], L3);
    LeakFireGo();
    LeakGoValidates();
    LeakGoGuard();
    Run3(L3, p2[0], L4, p2[1], L5, p2[2], L6);
    RunAppend(AsWritten, D, Initial(D), p1, p2);
    LeakStayLeaves();
    LeakGoLeaves();
    LeakGoEnters();
    Run3(L6, p3[0], L7, p3[1], L8, p3[2], L9);
    RunAppend(AsWritten, D, Initial(D), p1 + p2, p3);
    LeakStayEnters();
    LeakStaySettles();
    Run2(L9, p4[0], L10, p4[1], L11);
    RunAppend(AsWritten, D, Initial(D), p1 + p2 + p3, p4);
    LeakGoHook();
    LeakGoSettles();
    Run2(L11, p5[0], L12, p5[1], Leaked);
    RunAppend(AsWritten, D, Initial(D), p1 + p2 + p3 + p4, p5);
  }

  // ---------------------------------------------------------------------------
  // A failure after the enter stage clears another transition's lock
  // ---------------------------------------------------------------------------

  /**
   * A `go` enters B; a `back` then takes the lock; the `go`'s `onenteredB`
   * hook throws, and its revert clears the lock the `back` holds; a second
   * `back` passes its guard.
   */
  const LateTrace: seq<Action> :=
    [Fire("go", []), Step(0, Ok), Step(0, Ok)]
    + [Step(0, Ok), Step(0, Ok)]
    + [Fire("back", []), Step(1, Ok), Step(1, Ok)]
    + [Step(0, Throw(OtherError)), Finish(0)]
    + [Fire("back", []), Step(2, Ok), Step(2, Ok)]

  const N4: Snap := At("A", true, {}, {}, 1, map[0 := Go(3, Running, true)], [])
  const N5: Snap := At("B", false, {}, {}, 1, map[0 := Go(4, Running, false)], ["B"])
  const N6: Snap := At("B", false, {}, {}, 2, map[0 := Go(4, Running, false), 1 := Back(0, Running, false)], ["B"])
  const N7: Snap := At("B", false, {}, {}, 2, map[0 := Go(4, Running, false), 1 := Back(1, Running, false)], ["B"])
  const N8: Snap := At("B", true, {}, {}, 2, map[0 := Go(4, Running, false), 1 := Back(2, Running, true)], ["B"])
  const N9: Snap := At("B", true, {}, {}, 2, map[0 := Go(4, Failing(OtherError), false), 1 := Back(2, Running, true)], ["B"])
  const N10: Snap := At("B", false, {}, {}, 2, map[1 := Back(2, Running, true)], ["B"])
  const N11: Snap := At("B", false, {}, {}, 3, map[1 := Back(2, Running, true), 2 := Back(0, Running, false)], ["B"])
  const N12: Snap := At("B", false, {}, {}, 3, map[1 := Back(2, Running, true), 2 := Back(1, Running, false)], ["B"])
  const LatePassed: Snap := At("B", true, {}, {}, 3, map[1 := Back(2, Running, true), 2 := Back(2, Running, true)], ["B"])

  lemma LateGoLeaves()
    ensures Apply(AsWritten, D, LockedGo, Step(0, Ok)) == Some(N4)
  {
    GoChainIs();
    assert LockedGo.inflight[0].stages[2] == LeaveState;
    assert LockedGo.inflight[0].Kind() == Inter;
    assert CanAdvance(LockedGo, 0, Ok);
    assert LockedGo.inflight[0 := Go(3, Running, true)] == N4.inflight;
    assert LeaveStep(AsWritten, LockedGo, 0, LockedGo.inflight[0]) == N4;
  }

  lemma LateGoEnters()
    ensures Apply(AsWritten, D, N4, Step(0, Ok)) == Some(N5)
  {
    GoChainIs();
    assert N4.inflight[0].stages[3] == EnterState;
    assert N4.inflight[0].Kind() == Inter;
    assert CanAdvance(N4, 0, Ok);
    assert !IsPseudoState(Example, "B");
    assert N4.inflight[0 := Go(4, Running, false)] == N5.inflight;
    assert EnterStep(AsWritten, D, N4, 0, N4.inflight[0]) == N5;
  }

  lemma LateFireBack()
    ensures Apply(AsWritten, D, N5, Fire("back", [])) == Some(N6)
  {
    BackChainIs();
    assert Lookup(Example.events, "back", "B") == Some("A");
    assert N5.inflight[1 := Back(0, Running, false)] == N6.inflight;
  }

  lemma LateBackValidates()
    ensures Apply(AsWritten, D, N6, Step(1, Ok)) == Some(N7)
  {
    BackChainIs();
    assert N6.inflight[1].stages[0] == Validate;
    assert Can(Example, "B", "back");
    assert CanAdvance(N6, 1, Ok);
    assert N6.inflight[1 := Back(1, Running, false)] == N7.inflight;
    assert ValidateStep(D, N6, 1, N6.inflight[1]) == N7;
  }

  lemma LateBackGuard()
    ensures Apply(AsWritten, D, N7, Step(1, Ok)) == Some(N8)
  {
    BackChainIs();
    assert N7.inflight[1].stages[1] == Guard;
    assert N7.inflight[1].Kind() == Inter;
    assert CanAdvance(N7, 1, Ok);
    assert N7.states["B"] == {};
    assert N7.inflight[1 := Back(2, Running, true)] == N8.inflight;
    assert GuardStep(AsWritten, D, N7, 1, N7.inflight[1]) == N8;
  }

  lemma LateHookThrows()
    ensures Apply(AsWritten, D, N8, Step(0, Throw(OtherError))) == Some(N9)
  {
    GoChainIs();
    assert N8.inflight[0].stages[4] == Call(CallbackPrefix + "entered" + "B", UserHook, OwnOptions);
    assert CanAdvance(N8, 0, Throw(OtherError));
    assert N8.inflight[0 := Go(4, Failing(OtherError), false)] == N9.inflight;
    assert CallStep(AsWritten, D, N8, 0, N8.inflight[0], UserHook, OwnOptions, Throw(OtherError)) == N9;
  }

  lemma LateGoReverts()
    ensures Apply(AsWritten, D, N9, Finish(0)) == Some(N10)
  {
    GoChainIs();
    assert CanSettle(N9, 0);
    assert N9.inflight[0].Kind() == Inter;
    assert !SkipsCleanup(D, OtherError);
    assert N9.inflight - {0} == N10.inflight;
    assert Settle(AsWritten, D, N9, 0).0 == N10;
  }

  lemma LateFireBackAgain()
    ensures Apply(AsWritten, D, N10, Fire("back", [])) == Some(N11)
  {
    BackChainIs();
    assert Lookup(Example.events, "back", "B") == Some("A");
    assert N10.inflight[2 := Back(0, Running, false)] == N11.inflight;
  }

  lemma LateBackAgainValidates()
    ensures Apply(AsWritten, D, N11, Step(2, Ok)) == Some(N12)
  {
    BackChainIs();
    assert N11.inflight[2].stages[0] == Validate;
    assert Can(Example, "B", "back");
    assert CanAdvance(N11, 2, Ok);
    assert N11.inflight[2 := Back(1, Running, false)] == N12.inflight;
    assert ValidateStep(D, N11, 2, N11.inflight[2]) == N12;
  }

  lemma LateBackAgainGuard()
    ensures Apply(AsWritten, D, N12, Step(2, Ok)) == Some(LatePassed)
  {
    BackChainIs();
    assert N12.inflight[2].stages[1] == Guard;
    assert N12.inflight[2].Kind() == Inter;
    assert CanAdvance(N12, 2, Ok);
    assert N12.states["B"] == {};
    assert N12.inflight[2 := Back(2, Running, true)] == LatePassed.inflight;
    assert GuardStep(AsWritten, D, N12, 2, N12.inflight[2]) == LatePassed;
  }

  /**
   * As written, the revert of an INTER that fails after its enter stage
   * clears the lock of whichever INTER holds it by then, so two `back`
   * invocations pass their guards at once.
   */
  lemma LateFailureUnlocks()
    ensures Run(AsWritten, D, Initial(D), LateTrace) == Some(LatePassed)
    ensures TwoInterPassed(LatePassed, 1, 2)
  {
    LateTwoPassed();
    var p4 := [Step(0, Throw(OtherError)), Finish(0)];
    var p5 := [Fire("back", []), Step(2, Ok), Step(2, Ok)];
    var head := LateHead();
    LateHookThrows();
    LateGoReverts();
    Run2(N8, p4[0], N9, p4[1], N10);
    RunAppend(AsWritten, D, Initial(D), head, p4);
    LateFireBackAgain();
    LateBackAgainValidates();
    LateBackAgainGuard();
    Run3(N10, p5[0], N11, p5[1], N12, p5[2], LatePassed);
    RunAppend(AsWritten, D, Initial(D), head + p4, p5);
  }

  lemma LateTwoPassed()
    ensures TwoInterPassed(LatePassed, 1, 2)
  {
    BackChainIs();
  }

  /** The first eight actions: the `go` has entered B and the `back` holds the lock. */
  lemma LateHead() returns (head: seq<Action>)
    ensures head == [Fire("go", []), Step(0, Ok), Step(0, Ok)] + [Step(0, Ok), Step(0, Ok)] + [Fire("back", []), Step(1, Ok), Step(1, Ok)]
    ensures Run(AsWritten, D, Initial(D), head) == Some(N8)
  {
    var p1 := [Fire("go", []), Step(0, Ok), Step(0, Ok)];
    var p2 := [Step(0, Ok), Step(0, Ok)];
    var p3 := [Fire("back", []), Step(1, Ok), Step(1, Ok)];
    FirstGoLocks();
    LateGoLeaves();
    LateGoEnters();
    Run2(LockedGo, p2[0], N4, p2[1], N5);
    RunAppend(AsWritten, D, Initial(D), p1, p2);
    LateFireBack();
    LateBackValidates();
    LateBackGuard();
    Run3(N5, p3[0], N6, p3[1], N7, p3[2], N8);
    RunAppend(AsWritten, D, Initial(D), p1 + p2, p3);
    head := p1 + p2 + p3;
  }
}
