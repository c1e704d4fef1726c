/**
 * The exclusion discipline the guard is meant to enforce, proved for the
 * corrected semantics: the inter-state lock is set exactly while one INTER
 * invocation holds it, and the self-loop sets hold exactly the ids of the NOOP
 * invocations registered in them. Every step — trigger, stage, settle — keeps
 * this invariant, for every interleaving and every callback outcome.
 */
module FsmExclusion {

  import opened Wrappers
  import opened FsmTables
  import opened FsmRuntime
  import opened FsmTableProps

  /** The chain starts with validation and the guard, has no later guard, and enters the state once after them. */
  predicate Shaped(stages: seq<Stage>)
  {
    && |stages| >= 2 && stages[0] == Validate && stages[1] == Guard
    && (forall i :: 2 <= i < |stages| ==> stages[i] != Guard)
    && EnterState in stages[2..]
  }

  /** What each invocation `t` in flight satisfies under the corrected semantics. */
  predicate InvOk(t: nat, inv: Inv)
  {
    && Shaped(inv.stages)
    && inv.pc <= |inv.stages|
    && (inv.Kind() == Noop ==> inv.id == Some(t))
    && (inv.locked ==> inv.Kind() == Inter)
    && (inv.slot.Some? ==> inv.Kind() == Noop)
    && (inv.locked || inv.slot.Some? ==> 2 <= inv.pc < |inv.stages| && EnterState in inv.stages[inv.pc..])
    && (inv.status.Awaiting? ==> inv.pc < |inv.stages| && inv.stages[inv.pc].Call?)
  }

  /**
   * The lock is set exactly while some invocation holds it, and at most one
   * does; every registered NOOP's id is in its state's set, and every id in a
   * set belongs to the NOOP registered there.
   */
  ghost predicate Exclusive(s: Snap)
  {
    TokensOk(s) && LockHeld(s) && LockUnique(s) && SlotsRegistered(s) && KeysOwned(s)
  }

  /** Every invocation has a token below the counter and satisfies InvOk. */
  predicate TokensOk(s: Snap)
  {
    forall t :: t in s.inflight ==> t < s.nextToken && InvOk(t, s.inflight[t])
  }

  /** `inTransition` is set exactly while some invocation holds the lock. */
  ghost predicate LockHeld(s: Snap)
  {
    && (forall t :: t in s.inflight && s.inflight[t].locked ==> s.inTransition)
    && (s.inTransition ==> exists t :: t in s.inflight && s.inflight[t].locked)
  }

  /** At most one invocation holds the lock. */
  predicate LockUnique(s: Snap)
  {
    forall t, u :: t in s.inflight && u in s.inflight && s.inflight[t].locked && s.inflight[u].locked ==> t == u
  }

  /** A registered NOOP's id is in its state's self-loop set. */
  predicate SlotsRegistered(s: Snap)
  {
    forall t :: t in s.inflight && s.inflight[t].slot.Some? ==>
      s.inflight[t].slot.value in s.states && Some(t) in s.states[s.inflight[t].slot.value]
  }

  /** Every id in a self-loop set belongs to the NOOP in flight registered in that state. */
  predicate KeysOwned(s: Snap)
  {
    forall x, k :: x in s.states && k in s.states[x] ==>
      k.Some? && k.value in s.inflight && s.inflight[k.value].slot == Some(x)
  }

  // ---------------------------------------------------------------------------
  // Shape of the stage list
  // ---------------------------------------------------------------------------

  lemma BeforeEnterShape(t: Tables, name: string, from: string, to: Option<string>)
    ensures Guard !in BeforeEnter(t, name, from, to)
  {
  }

  lemma AfterEnterShape(t: Tables, name: string, to: Option<string>)
    ensures Guard !in AfterEnter(t, name, to)
  {
  }

  lemma ShapedConcat(mid: seq<Stage>, tail: seq<Stage>)
    requires Guard !in mid && Guard !in tail
    ensures Shaped([Validate, Guard] + mid + [EnterState] + tail)
  {
    var st := [Validate, Guard] + mid + [EnterState] + tail;
    assert st[2..] == mid + [EnterState] + tail;
    assert st[2..][|mid|] == EnterState;
    forall i | 2 <= i < |st|
      ensures st[i] != Guard
    {
      assert st[i] in mid + [EnterState] + tail by {
        assert st[i] == st[2..][i - 2];
      }
    }
  }

  /** Every chain buildEvent assembles is shaped. */
  lemma StagesShaped(t: Tables, name: string, from: string, to: Option<string>)
    ensures Shaped(Stages(t, name, from, to))
  {
    BeforeEnterShape(t, name, from, to);
    AfterEnterShape(t, name, to);
    ShapedConcat(BeforeEnter(t, name, from, to), AfterEnter(t, name, to));
  }

  /** Moving past a stage that is not the enter stage keeps the enter stage ahead. */
  lemma EnterAhead(stages: seq<Stage>, pc: nat)
    requires pc < |stages| && stages[pc] != EnterState && EnterState in stages[pc..]
    ensures EnterState in stages[pc + 1..]
  {
    assert stages[pc..] == [stages[pc]] + stages[pc + 1..];
  }

  /** Moving past a stage other than the enter stage keeps an invocation well formed. */
  lemma NextOk(t: nat, inv: Inv)
    requires InvOk(t, inv)
    requires inv.pc < |inv.stages| && inv.stages[inv.pc] != EnterState
    requires !inv.status.Awaiting?
    ensures InvOk(t, inv.(pc := inv.pc + 1))
  {
    if inv.locked || inv.slot.Some? {
      EnterAhead(inv.stages, inv.pc);
    }
  }

  /** Moving past the enter stage, having released the lock and the slot. */
  lemma EnterOk(t: nat, inv: Inv, il: Inv)
    requires InvOk(t, inv) && inv.pc < |inv.stages| && !inv.status.Awaiting?
    requires il.stages == inv.stages && il.pc == inv.pc && il.status == inv.status
    requires il.from == inv.from && il.to == inv.to && il.id == inv.id
    requires !il.locked && il.slot.None?
    ensures InvOk(t, il.(pc := il.pc + 1))
  {
  }

  /** What the guard takes (the lock for an INTER, a slot for a NOOP) is held until the enter stage. */
  lemma GuardTakeOk(t: nat, inv: Inv, locked: bool, slot: Option<string>)
    requires InvOk(t, inv) && inv.pc < |inv.stages| && inv.stages[inv.pc] == Guard
    requires !inv.status.Awaiting?
    requires locked ==> inv.Kind() == Inter
    requires slot.Some? ==> inv.Kind() == Noop
    ensures InvOk(t, inv.(locked := locked, slot := slot).(pc := inv.pc + 1))
  {
    GuardIsSecond(inv);
  }

  /** The guard is the second stage and the only one. */
  lemma GuardIsSecond(inv: Inv)
    requires Shaped(inv.stages) && inv.pc < |inv.stages| && inv.stages[inv.pc] == Guard
    ensures inv.pc == 1
  {
  }

  // ---------------------------------------------------------------------------
  // Frame lemmas
  // ---------------------------------------------------------------------------

  /** Replacing an invocation by one holding the same things keeps the invariant. */
  lemma PutPreserves(s: Snap, token: nat, inv: Inv)
    requires Exclusive(s)
    requires token in s.inflight
    requires InvOk(token, inv)
    requires inv.locked == s.inflight[token].locked && inv.slot == s.inflight[token].slot
    ensures Exclusive(Put(s, token, inv))
  {
    PutTokensOk(s, token, inv);
    PutLockHeld(s, token, inv);
    PutLockUnique(s, token, inv);
    PutSlotsRegistered(s, token, inv);
    PutKeysOwned(s, token, inv);
  }

  lemma PutTokensOk(s: Snap, token: nat, inv: Inv)
    requires TokensOk(s) && token in s.inflight && InvOk(token, inv)
    ensures TokensOk(Put(s, token, inv))
  {
    var s1 := Put(s, token, inv);
    forall t | t in s1.inflight
      ensures t < s1.nextToken && InvOk(t, s1.inflight[t])
    {
      if t != token {
        assert s1.inflight[t] == s.inflight[t];
      }
    }
  }

  lemma PutLockHeld(s: Snap, token: nat, inv: Inv)
    requires LockHeld(s) && token in s.inflight && inv.locked == s.inflight[token].locked
    ensures LockHeld(Put(s, token, inv))
  {
    var s1 := Put(s, token, inv);
    if s1.inTransition {
      var w :| w in s.inflight && s.inflight[w].locked;
      assert w in s1.inflight && s1.inflight[w].locked;
    }
  }

  lemma PutLockUnique(s: Snap, token: nat, inv: Inv)
    requires LockUnique(s) && token in s.inflight && inv.locked == s.inflight[token].locked
    ensures LockUnique(Put(s, token, inv))
  {
  }

  lemma PutSlotsRegistered(s: Snap, token: nat, inv: Inv)
    requires SlotsRegistered(s) && token in s.inflight && inv.slot == s.inflight[token].slot
    ensures SlotsRegistered(Put(s, token, inv))
  {
  }

  lemma PutKeysOwned(s: Snap, token: nat, inv: Inv)
    requires KeysOwned(s) && token in s.inflight && inv.slot == s.inflight[token].slot
    ensures KeysOwned(Put(s, token, inv))
  {
  }

  /** The invariant reads only the lock flag, the self-loop sets, the counter and the invocations. */
  lemma SameHoldings(s: Snap, s1: Snap)
    requires Exclusive(s)
    requires s1.inTransition == s.inTransition && s1.states == s.states
    requires s1.nextToken == s.nextToken && s1.inflight == s.inflight
    ensures Exclusive(s1)
  {
    assert TokensOk(s1) && LockUnique(s1) && SlotsRegistered(s1) && KeysOwned(s1);
    if s1.inTransition {
      var w :| w in s.inflight && s.inflight[w].locked;
      assert w in s1.inflight && s1.inflight[w].locked;
    }
  }

  /** Everything but LockHeld reads only the self-loop sets, the counter and the invocations. */
  lemma SameLedger(s: Snap, s1: Snap)
    requires TokensOk(s) && SlotsRegistered(s) && KeysOwned(s) && LockUnique(s)
    requires s1.states == s.states && s1.nextToken == s.nextToken && s1.inflight == s.inflight
    ensures TokensOk(s1) && SlotsRegistered(s1) && KeysOwned(s1) && LockUnique(s1)
  {
  }

  /** An invocation that holds nothing can leave. */
  lemma RemoveFree(s: Snap, token: nat)
    requires Exclusive(s) && token in s.inflight
    requires !s.inflight[token].locked && s.inflight[token].slot.None?
    ensures Exclusive(s.(inflight := s.inflight - {token}))
  {
    RemoveTokensOk(s, token);
    RemoveLockHeld(s, token);
    RemoveLockUnique(s, token);
    RemoveSlots(s, token);
    RemoveKeys(s, token);
  }

  lemma RemoveTokensOk(s: Snap, token: nat)
    requires TokensOk(s)
    ensures TokensOk(s.(inflight := s.inflight - {token}))
  {
  }

  lemma RemoveLockHeld(s: Snap, token: nat)
    requires LockHeld(s) && token in s.inflight && !s.inflight[token].locked
    ensures LockHeld(s.(inflight := s.inflight - {token}))
  {
    var s1 := s.(inflight := s.inflight - {token});
    if s1.inTransition {
      var w :| w in s.inflight && s.inflight[w].locked;
      assert w in s1.inflight && s1.inflight[w].locked;
    }
  }

  lemma RemoveLockUnique(s: Snap, token: nat)
    requires LockUnique(s)
    ensures LockUnique(s.(inflight := s.inflight - {token}))
  {
  }

  lemma RemoveSlots(s: Snap, token: nat)
    requires SlotsRegistered(s)
    ensures SlotsRegistered(s.(inflight := s.inflight - {token}))
  {
  }

  lemma RemoveKeys(s: Snap, token: nat)
    requires KeysOwned(s) && token in s.inflight && s.inflight[token].slot.None?
    ensures KeysOwned(s.(inflight := s.inflight - {token}))
  {
    var s1 := s.(inflight := s.inflight - {token});
    forall x, k | x in s1.states && k in s1.states[x]
      ensures k.Some? && k.value in s1.inflight && s1.inflight[k.value].slot == Some(x)
    {
      assert k.value != token;
    }
  }

  // ---------------------------------------------------------------------------
  // Trigger
  // ---------------------------------------------------------------------------

  /** A trigger adds an invocation that holds nothing. */
  lemma TriggerPreserves(d: Def, s: Snap, name: string, args: seq<Value>, parent: Option<nat>)
    requires Exclusive(s)
    ensures Exclusive(Trigger(Corrected, d, s, name, args, parent))
  {
    var to := Lookup(d.t.events, name, s.current);
    var sharedRes := IsPseudoState(d.t, ToKey(to));
    var s0 := s.(responses := if sharedRes then s.responses - {name} else s.responses);
    var inv := Inv(name, s.current, to, IdFor(Corrected, s.nextToken, s.current, to), args,
                   Stages(d.t, name, s.current, to), 0, None, sharedRes, Running, parent, false, None);
    TriggerAdds(d, s, name, args, parent);
    TriggeredOk(d.t, name, s.current, to, s.nextToken, args, sharedRes, parent);
    SameHoldings(s, s0);
    AddFree(s0, inv);
    ExclusiveSame(s0.(nextToken := s0.nextToken + 1, inflight := s0.inflight[s0.nextToken := inv]),
                  Trigger(Corrected, d, s, name, args, parent));
  }

  /** A new invocation is well formed and holds nothing. */
  lemma TriggeredOk(t: Tables, name: string, from: string, to: Option<string>, token: nat, args: seq<Value>,
                    sharedRes: bool, parent: Option<nat>)
    ensures InvOk(token, Inv(name, from, to, IdFor(Corrected, token, from, to), args,
                             Stages(t, name, from, to), 0, None, sharedRes, Running, parent, false, None))
  {
    StagesShaped(t, name, from, to);
  }

  lemma ExclusiveSame(s: Snap, s1: Snap)
    requires Exclusive(s) && s1 == s
    ensures Exclusive(s1)
  {
  }

  /** A trigger adds one running invocation under the next token. */
  lemma TriggerAdds(d: Def, s: Snap, name: string, args: seq<Value>, parent: Option<nat>)
    ensures var to := Lookup(d.t.events, name, s.current);
      var sharedRes := IsPseudoState(d.t, ToKey(to));
      var s0 := s.(responses := if sharedRes then s.responses - {name} else s.responses);
      Trigger(Corrected, d, s, name, args, parent)
      == s0.(nextToken := s0.nextToken + 1,
             inflight := s0.inflight[s0.nextToken := Inv(name, s.current, to, IdFor(Corrected, s.nextToken, s.current, to), args,
                                                          Stages(d.t, name, s.current, to), 0, None, sharedRes, Running, parent, false, None)])
  {
  }

  /** Adding an invocation under the next token, holding nothing, keeps the invariant. */
  lemma AddFree(s: Snap, inv: Inv)
    requires Exclusive(s)
    requires InvOk(s.nextToken, inv) && !inv.locked && inv.slot.None?
    ensures Exclusive(s.(nextToken := s.nextToken + 1, inflight := s.inflight[s.nextToken := inv]))
  {
    AddTokensOk(s, inv);
    AddLockHeld(s, inv);
    AddLockUnique(s, inv);
    AddSlots(s, inv);
    AddKeys(s, inv);
  }

  lemma AddTokensOk(s: Snap, inv: Inv)
    requires TokensOk(s) && InvOk(s.nextToken, inv)
    ensures TokensOk(s.(nextToken := s.nextToken + 1, inflight := s.inflight[s.nextToken := inv]))
  {
  }

  lemma AddLockHeld(s: Snap, inv: Inv)
    requires LockHeld(s) && TokensOk(s) && !inv.locked
    ensures LockHeld(s.(nextToken := s.nextToken + 1, inflight := s.inflight[s.nextToken := inv]))
  {
    var s1 := s.(nextToken := s.nextToken + 1, inflight := s.inflight[s.nextToken := inv]);
    if s1.inTransition {
      var w :| w in s.inflight && s.inflight[w].locked;
      assert w in s1.inflight && s1.inflight[w].locked;
    }
  }

  lemma AddLockUnique(s: Snap, inv: Inv)
    requires LockUnique(s) && !inv.locked
    ensures LockUnique(s.(nextToken := s.nextToken + 1, inflight := s.inflight[s.nextToken := inv]))
  {
  }

  lemma AddSlots(s: Snap, inv: Inv)
    requires SlotsRegistered(s) && inv.slot.None?
    ensures SlotsRegistered(s.(nextToken := s.nextToken + 1, inflight := s.inflight[s.nextToken := inv]))
  {
  }

  lemma AddKeys(s: Snap, inv: Inv)
    requires KeysOwned(s) && TokensOk(s)
    ensures KeysOwned(s.(nextToken := s.nextToken + 1, inflight := s.inflight[s.nextToken := inv]))
  {
    var s1 := s.(nextToken := s.nextToken + 1, inflight := s.inflight[s.nextToken := inv]);
    forall x, k | x in s1.states && k in s1.states[x]
      ensures k.Some? && k.value in s1.inflight && s1.inflight[k.value].slot == Some(x)
    {
      assert k.value != s.nextToken;
    }
  }

  // ---------------------------------------------------------------------------
  // Generic moves
  // ---------------------------------------------------------------------------

  lemma NextPreserves(s: Snap, token: nat)
    requires Exclusive(s) && token in s.inflight
    requires s.inflight[token].pc < |s.inflight[token].stages|
    requires s.inflight[token].stages[s.inflight[token].pc] != EnterState
    requires s.inflight[token].status == Running
    ensures Exclusive(Next(s, token, s.inflight[token]))
  {
    var inv := s.inflight[token];
    assert InvOk(token, inv);
    NextOk(token, inv);
    NextIsPut(s, token, inv);
    PutPreserves(s, token, inv.(pc := inv.pc + 1));
  }

  lemma ThrowingPreserves(s: Snap, token: nat, err: Error)
    requires Exclusive(s) && token in s.inflight
    ensures Exclusive(Throwing(s, token, s.inflight[token], err))
  {
    PutPreserves(s, token, s.inflight[token].(status := Failing(err)));
  }

  /** Replacing the lock holder by an invocation that no longer holds it, with the flag already cleared. */
  lemma UnlockPut(s: Snap, token: nat, inv1: Inv)
    requires TokensOk(s) && SlotsRegistered(s) && KeysOwned(s) && LockUnique(s)
    requires token in s.inflight && s.inflight[token].locked && !s.inTransition
    requires InvOk(token, inv1) && !inv1.locked && inv1.slot == s.inflight[token].slot
    ensures Exclusive(Put(s, token, inv1))
  {
    var s1 := Put(s, token, inv1);
    PutTokensOk(s, token, inv1);
    PutSlotsRegistered(s, token, inv1);
    PutKeysOwned(s, token, inv1);
    forall t | t in s1.inflight && s1.inflight[t].locked
      ensures false
    {
      assert false;
    }
  }

  /** Replacing a registered NOOP by one that no longer holds its slot, removing its id from the slot's set. */
  lemma DeregisterPut(s: Snap, token: nat, inv1: Inv)
    requires Exclusive(s) && token in s.inflight && s.inflight[token].slot.Some?
    requires InvOk(token, inv1) && inv1.slot.None? && inv1.locked == s.inflight[token].locked
    ensures s.inflight[token].slot.value in s.states
    ensures Exclusive(Put(s.(states := RemoveKey(s.states, s.inflight[token].slot.value, s.inflight[token].id)), token, inv1))
  {
    var inv := s.inflight[token];
    assert InvOk(token, inv);
    var s0 := s.(states := RemoveKey(s.states, inv.slot.value, inv.id));
    PutTokensOk(s0, token, inv1);
    PutLockHeld(s0, token, inv1);
    PutLockUnique(s0, token, inv1);
    DeregisterSlots(s, token, inv1);
    DeregisterKeys(s, token, inv1);
  }

  lemma DeregisterSlots(s: Snap, token: nat, inv1: Inv)
    requires SlotsRegistered(s) && token in s.inflight && s.inflight[token].slot.Some?
    requires s.inflight[token].id == Some(token) && inv1.slot.None?
    ensures s.inflight[token].slot.value in s.states
    ensures SlotsRegistered(Put(s.(states := RemoveKey(s.states, s.inflight[token].slot.value, s.inflight[token].id)), token, inv1))
  {
  }

  lemma DeregisterKeys(s: Snap, token: nat, inv1: Inv)
    requires KeysOwned(s) && token in s.inflight && s.inflight[token].slot.Some?
    requires s.inflight[token].slot.value in s.states && s.inflight[token].id == Some(token)
    ensures KeysOwned(Put(s.(states := RemoveKey(s.states, s.inflight[token].slot.value, s.inflight[token].id)), token, inv1))
  {
    var inv := s.inflight[token];
    var x := inv.slot.value;
    var s1 := Put(s.(states := RemoveKey(s.states, x, inv.id)), token, inv1);
    forall y, k | y in s1.states && k in s1.states[y]
      ensures k.Some? && k.value in s1.inflight && s1.inflight[k.value].slot == Some(y)
    {
      assert k in s.states[y];
      if k.value == token {
        assert false;
      }
    }
  }

  // ---------------------------------------------------------------------------
  // The guard
  // ---------------------------------------------------------------------------

  /** The corrected guard of a NOOP registers its id in the current state. */
  lemma RegisterPreserves(s: Snap, token: nat)
    requires Exclusive(s) && token in s.inflight
    requires s.inflight[token].status == Running
    requires s.inflight[token].pc < |s.inflight[token].stages|
    requires s.inflight[token].stages[s.inflight[token].pc] == Guard
    requires s.inflight[token].Kind() == Noop && s.current in s.states
    ensures var inv := s.inflight[token];
      Exclusive(Next(s.(states := AddKey(s.states, s.current, inv.id)), token, inv.(slot := Some(s.current))))
  {
    var inv := s.inflight[token];
    assert InvOk(token, inv);
    GuardTakeOk(token, inv, inv.locked, Some(s.current));
    assert inv.(slot := Some(s.current)).(pc := inv.pc + 1)
        == inv.(locked := inv.locked, slot := Some(s.current)).(pc := inv.pc + 1);
    RegisterLedger(s, token);
    RegisterSlots(s, token);
    RegisterKeys(s, token);
  }

  lemma RegisterLedger(s: Snap, token: nat)
    requires TokensOk(s) && LockHeld(s) && LockUnique(s) && token in s.inflight && s.current in s.states
    requires var inv := s.inflight[token]; InvOk(token, inv.(slot := Some(s.current)).(pc := inv.pc + 1))
    ensures var inv := s.inflight[token];
      var s1 := Next(s.(states := AddKey(s.states, s.current, inv.id)), token, inv.(slot := Some(s.current)));
      TokensOk(s1) && LockHeld(s1) && LockUnique(s1)
  {
    var inv := s.inflight[token];
    var s0 := s.(states := AddKey(s.states, s.current, inv.id));
    var inv1 := inv.(slot := Some(s.current)).(pc := inv.pc + 1);
    NextIsPut(s0, token, inv.(slot := Some(s.current)));
    LedgerStates(s, s0.states);
    PutTokensOk(s0, token, inv1);
    PutLockHeld(s0, token, inv1);
    PutLockUnique(s0, token, inv1);
    LedgerSame(Put(s0, token, inv1), Next(s0, token, inv.(slot := Some(s.current))));
  }

  lemma LedgerSame(s: Snap, s1: Snap)
    requires TokensOk(s) && LockHeld(s) && LockUnique(s) && s1 == s
    ensures TokensOk(s1) && LockHeld(s1) && LockUnique(s1)
  {
  }

  /** The lock and the tokens do not depend on the self-loop sets. */
  lemma LedgerStates(s: Snap, st: map<string, set<LoopKey>>)
    requires TokensOk(s) && LockHeld(s) && LockUnique(s)
    ensures var s1 := s.(states := st); TokensOk(s1) && LockHeld(s1) && LockUnique(s1)
  {
    var s1 := s.(states := st);
    if s1.inTransition {
      var w :| w in s.inflight && s.inflight[w].locked;
      assert w in s1.inflight && s1.inflight[w].locked;
    }
  }

  lemma RegisterSlots(s: Snap, token: nat)
    requires SlotsRegistered(s) && token in s.inflight && s.current in s.states
    requires s.inflight[token].id == Some(token)
    ensures var inv := s.inflight[token];
      SlotsRegistered(Next(s.(states := AddKey(s.states, s.current, inv.id)), token, inv.(slot := Some(s.current))))
  {
  }

  lemma RegisterKeys(s: Snap, token: nat)
    requires KeysOwned(s) && token in s.inflight && s.current in s.states
    requires s.inflight[token].id == Some(token) && s.inflight[token].slot.None?
    ensures var inv := s.inflight[token];
      KeysOwned(Next(s.(states := AddKey(s.states, s.current, inv.id)), token, inv.(slot := Some(s.current))))
  {
    var inv := s.inflight[token];
    var s1 := Next(s.(states := AddKey(s.states, s.current, inv.id)), token, inv.(slot := Some(s.current)));
    forall y, k | y in s1.states && k in s1.states[y]
      ensures k.Some? && k.value in s1.inflight && s1.inflight[k.value].slot == Some(y)
    {
      if k != inv.id || y != s.current {
        assert k in s.states[y];
        assert k.value != token;
      }
    }
  }

  /** The guard of an INTER takes the lock only when no one holds it. */
  lemma LockPreserves(s: Snap, token: nat)
    requires Exclusive(s) && token in s.inflight && !s.inTransition
    requires s.inflight[token].status == Running
    requires s.inflight[token].pc < |s.inflight[token].stages|
    requires s.inflight[token].stages[s.inflight[token].pc] == Guard
    requires s.inflight[token].Kind() == Inter
    ensures Exclusive(Next(s.(inTransition := true), token, s.inflight[token].(locked := true)))
  {
    var inv := s.inflight[token];
    GuardTakeOk(token, inv, true, inv.slot);
    assert inv.(locked := true, slot := inv.slot) == inv.(locked := true);
    LockTake(s, token, inv.(locked := true));
  }

  lemma LockTake(s: Snap, token: nat, il: Inv)
    requires Exclusive(s) && token in s.inflight && !s.inTransition
    requires InvOk(token, il.(pc := il.pc + 1)) && il.locked && il.slot == s.inflight[token].slot
    ensures Exclusive(Next(s.(inTransition := true), token, il))
  {
    var s0 := s.(inTransition := true);
    var inv1 := il.(pc := il.pc + 1);
    NextIsPut(s0, token, il);
    SameLedger(s, s0);
    PutTokensOk(s0, token, inv1);
    LockLockHeld(s0, token, inv1);
    LockLockUnique(s, token, inv1);
    PutSlotsRegistered(s0, token, inv1);
    PutKeysOwned(s0, token, inv1);
  }

  lemma LockLockHeld(s: Snap, token: nat, inv1: Inv)
    requires token in s.inflight && inv1.locked && s.inTransition
    ensures LockHeld(Put(s, token, inv1))
  {
    assert Put(s, token, inv1).inflight[token].locked;
  }

  lemma LockLockUnique(s: Snap, token: nat, inv1: Inv)
    requires LockHeld(s) && !s.inTransition && token in s.inflight
    ensures LockUnique(Put(s.(inTransition := true), token, inv1))
  {
    var s1 := Put(s.(inTransition := true), token, inv1);
    forall t, u | t in s1.inflight && u in s1.inflight && s1.inflight[t].locked && s1.inflight[u].locked
      ensures t == u
    {
      if t != token {
        assert false;
      }
      if u != token {
        assert false;
      }
    }
  }

  lemma GuardPreserves(d: Def, s: Snap, token: nat)
    requires Exclusive(s) && token in s.inflight && s.inflight[token].status == Running
    requires s.inflight[token].pc < |s.inflight[token].stages|
    requires s.inflight[token].stages[s.inflight[token].pc] == Guard
    ensures Exclusive(GuardStep(Corrected, d, s, token, s.inflight[token]))
  {
    var inv := s.inflight[token];
    match inv.Kind()
    case Noop =>
      if s.inTransition {
        ThrowingPreserves(s, token, FsmError(TransitionPending, d.instance));
      } else if s.current in s.states {
        RegisterPreserves(s, token);
      } else {
        ThrowingPreserves(s, token, OtherError);
      }
    case Inter =>
      if s.current !in s.states {
        ThrowingPreserves(s, token, OtherError);
      } else if s.states[s.current] != {} {
        ThrowingPreserves(s, token, FsmError(TransitionPending, d.instance));
      } else if s.inTransition {
        ThrowingPreserves(s, token, FsmError(InterStarted, d.instance));
      } else {
        LockPreserves(s, token);
      }
    case General =>
      NextPreserves(s, token);
  }

  // ---------------------------------------------------------------------------
  // The other stages
  // ---------------------------------------------------------------------------

  lemma ValidatePreserves(d: Def, s: Snap, token: nat)
    requires Exclusive(s) && token in s.inflight && s.inflight[token].status == Running
    requires s.inflight[token].pc < |s.inflight[token].stages|
    requires s.inflight[token].stages[s.inflight[token].pc] == Validate
    ensures Exclusive(ValidateStep(d, s, token, s.inflight[token]))
  {
    if Can(d.t, s.current, s.inflight[token].name) {
      NextPreserves(s, token);
    } else {
      ThrowingPreserves(s, token, FsmError(InvalidEvent, d.instance));
    }
  }

  lemma LeavePreserves(s: Snap, token: nat)
    requires Exclusive(s) && token in s.inflight && s.inflight[token].status == Running
    requires s.inflight[token].pc < |s.inflight[token].stages|
    requires s.inflight[token].stages[s.inflight[token].pc] == LeaveState
    ensures Exclusive(LeaveStep(Corrected, s, token, s.inflight[token]))
  {
    NextPreserves(s, token);
  }

  /** The corrected enter stage releases exactly what the invocation holds. */
  lemma EnterPreserves(d: Def, s: Snap, token: nat)
    requires Exclusive(s) && token in s.inflight && s.inflight[token].status == Running
    requires s.inflight[token].pc < |s.inflight[token].stages|
    requires s.inflight[token].stages[s.inflight[token].pc] == EnterState
    ensures Exclusive(EnterStep(Corrected, d, s, token, s.inflight[token]))
  {
    if s.inflight[token].Kind() == Noop {
      EnterNoopPreserves(s, token);
    } else {
      EnterMovePreserves(d, s, token);
    }
  }

  lemma EnterNoopPreserves(s: Snap, token: nat)
    requires Exclusive(s) && token in s.inflight && s.inflight[token].status == Running
    requires s.inflight[token].pc < |s.inflight[token].stages|
    requires s.inflight[token].Kind() == Noop
    ensures s.inflight[token].slot.Some? && s.inflight[token].slot.value in s.states ==>
      Exclusive(Next(s.(states := RemoveKey(s.states, s.inflight[token].slot.value, s.inflight[token].id)),
                     token, s.inflight[token].(slot := None)))
    ensures s.inflight[token].slot.None? ==> Exclusive(Next(s, token, s.inflight[token].(slot := None)))
  {
    assert InvOk(token, s.inflight[token]);
    EnterOk(token, s.inflight[token], s.inflight[token].(slot := None));
    if s.inflight[token].slot.Some? {
      DeregisterNext(s, token, s.inflight[token].(slot := None));
    } else {
      PutNext(s, token, s.inflight[token].(slot := None));
    }
  }

  /** Moving to the next stage replaces the invocation by its successor. */
  lemma NextIsPut(s: Snap, token: nat, il: Inv)
    ensures Next(s, token, il) == Put(s, token, il.(pc := il.pc + 1))
  {
  }

  lemma PutNext(s: Snap, token: nat, il: Inv)
    requires Exclusive(s) && token in s.inflight && InvOk(token, il.(pc := il.pc + 1))
    requires il.locked == s.inflight[token].locked && il.slot == s.inflight[token].slot
    ensures Exclusive(Next(s, token, il))
  {
    NextIsPut(s, token, il);
    PutPreserves(s, token, il.(pc := il.pc + 1));
  }

  lemma DeregisterNext(s: Snap, token: nat, il: Inv)
    requires Exclusive(s) && token in s.inflight && s.inflight[token].slot.Some?
    requires InvOk(token, il.(pc := il.pc + 1)) && il.slot.None? && il.locked == s.inflight[token].locked
    ensures s.inflight[token].slot.value in s.states
    ensures Exclusive(Next(s.(states := RemoveKey(s.states, s.inflight[token].slot.value, s.inflight[token].id)), token, il))
  {
    NextIsPut(s.(states := RemoveKey(s.states, s.inflight[token].slot.value, s.inflight[token].id)), token, il);
    DeregisterPut(s, token, il.(pc := il.pc + 1));
  }

  lemma UnlockNext(s: Snap, token: nat, il: Inv)
    requires TokensOk(s) && SlotsRegistered(s) && KeysOwned(s) && LockUnique(s)
    requires token in s.inflight && s.inflight[token].locked && !s.inTransition
    requires InvOk(token, il.(pc := il.pc + 1)) && !il.locked && il.slot == s.inflight[token].slot
    ensures Exclusive(Next(s, token, il))
  {
    NextIsPut(s, token, il);
    UnlockPut(s, token, il.(pc := il.pc + 1));
  }

  lemma EnterMovePreserves(d: Def, s: Snap, token: nat)
    requires Exclusive(s) && token in s.inflight && s.inflight[token].status == Running
    requires s.inflight[token].pc < |s.inflight[token].stages|
    requires s.inflight[token].Kind() != Noop
    ensures Exclusive(EnterStep(Corrected, d, s, token, s.inflight[token]))
  {
    var inv := s.inflight[token];
    var to := inv.to.value;
    var s1 := s.(inTransition := if Corrected == AsWritten || inv.locked then false else s.inTransition,
                 current := to,
                 emitted := if IsPseudoState(d.t, to) then s.emitted else s.emitted + [to]);
    assert InvOk(token, inv);
    EnterOk(token, inv, inv.(locked := false));
    if inv.locked {
      SameLedger(s, s1);
      UnlockNext(s1, token, inv.(locked := false));
    } else {
      SameHoldings(s, s1);
      PutNext(s1, token, inv.(locked := false));
    }
  }

  // ---------------------------------------------------------------------------
  // Callbacks
  // ---------------------------------------------------------------------------

  /** Recording a callback's `res` changes no holding. */
  lemma AssignPreserves(s: Snap, token: nat, ctx: Ctx, v: string)
    requires Exclusive(s) && token in s.inflight && s.inflight[token].status == Running
    requires s.inflight[token].pc < |s.inflight[token].stages|
    requires s.inflight[token].stages[s.inflight[token].pc].Call?
    ensures Exclusive(Assign(s, token, s.inflight[token], ctx, v))
  {
    var inv := s.inflight[token];
    match ctx
    case PseudoOptions(key) =>
      ResponseNext(s, token, key, v);
    case OwnOptions =>
      if inv.sharedRes {
        ResponseNext(s, token, inv.name, v);
      } else {
        assert InvOk(token, inv);
        NextOk(token, inv.(res := Some(v)));
        PutNext(s, token, inv.(res := Some(v)));
      }
  }

  /** Setting a shared `res` and moving on. */
  lemma ResponseNext(s: Snap, token: nat, key: string, v: string)
    requires Exclusive(s) && token in s.inflight && s.inflight[token].status == Running
    requires s.inflight[token].pc < |s.inflight[token].stages|
    requires s.inflight[token].stages[s.inflight[token].pc].Call?
    ensures Exclusive(Next(s.(responses := s.responses[key := v]), token, s.inflight[token]))
  {
    var s1 := s.(responses := s.responses[key := v]);
    SameHoldings(s, s1);
    NextPreserves(s1, token);
  }

  /** A nested trigger adds a free invocation; the caller waits on it, holding what it held. */
  lemma SpawnPreserves(d: Def, s: Snap, token: nat, name: string, args: seq<Value>, thenFail: bool)
    requires Exclusive(s) && token in s.inflight && s.inflight[token].status == Running
    requires s.inflight[token].pc < |s.inflight[token].stages|
    requires s.inflight[token].stages[s.inflight[token].pc].Call?
    ensures Exclusive(Spawn(Corrected, d, s, token, s.inflight[token], name, args, thenFail))
  {
    if name in d.t.events {
      var s1 := Trigger(Corrected, d, s, name, args, Some(token));
      TriggerPreserves(d, s, name, args, Some(token));
      assert token < s.nextToken;
      assert s1.inflight[token] == s.inflight[token];
      PutPreserves(s1, token, s.inflight[token].(status := Awaiting(s.nextToken, thenFail)));
    } else {
      ThrowingPreserves(s, token, OtherError);
    }
  }

  lemma CallPreserves(d: Def, s: Snap, token: nat, reply: Reply)
    requires Exclusive(s) && token in s.inflight && s.inflight[token].status == Running
    requires s.inflight[token].pc < |s.inflight[token].stages|
    requires s.inflight[token].stages[s.inflight[token].pc].Call?
    requires Fits(s.inflight[token].stages[s.inflight[token].pc].hook, reply)
    ensures Exclusive(CallStep(Corrected, d, s, token, s.inflight[token], s.inflight[token].stages[s.inflight[token].pc].hook,
                               s.inflight[token].stages[s.inflight[token].pc].ctx, reply))
  {
    var inv := s.inflight[token];
    var h := inv.stages[inv.pc].hook;
    match reply
    case Throw(err) => ThrowingPreserves(s, token, err);
    case Done(v) =>
      if v.Some? {
        AssignPreserves(s, token, inv.stages[inv.pc].ctx, v.value);
      } else {
        NextPreserves(s, token);
      }
    case Await(name, args) => SpawnPreserves(d, s, token, name, args, false);
    case Chose(pick) =>
      var choice := Resolve(h.candidates, pick);
      SpawnPreserves(d, s, token, ChoiceEvent(h.event, h.origin, choice), if choice.None? then [] else inv.args, choice.None?);
  }

  /** Every stage of the corrected pipeline keeps the exclusion invariant. */
  lemma AdvancePreserves(d: Def, s: Snap, token: nat, reply: Reply)
    requires Exclusive(s) && CanAdvance(s, token, reply)
    ensures Exclusive(Advance(Corrected, d, s, token, reply))
  {
    match s.inflight[token].stages[s.inflight[token].pc]
    case Validate => ValidatePreserves(d, s, token);
    case Guard => GuardPreserves(d, s, token);
    case LeaveState => LeavePreserves(s, token);
    case EnterState => EnterPreserves(d, s, token);
    case Call(_, _, _) => CallPreserves(d, s, token, reply);
  }

  // ---------------------------------------------------------------------------
  // Settling
  // ---------------------------------------------------------------------------

  /**
   * What revert leaves: the lock flag cleared if the invocation held it, its
   * id removed from the state it registered in, and nothing else changed.
   */
  predicate Released(s: Snap, token: nat, r: Snap)
    requires token in s.inflight
  {
    var inv := s.inflight[token];
    && r.inflight == s.inflight && r.nextToken == s.nextToken
    && r.inTransition == (if inv.locked then false else s.inTransition)
    && (inv.slot.Some? && inv.slot.value in s.states ==> r.states == RemoveKey(s.states, inv.slot.value, inv.id))
    && (inv.slot.None? ==> r.states == s.states)
  }

  lemma RevertReleases(d: Def, s: Snap, token: nat, err: Error)
    requires token in s.inflight
    ensures Released(s, token, Revert(Corrected, d, s, s.inflight[token], err).0)
  {
  }

  /** An invocation leaves once it has released what it held. */
  lemma ReleasedFree(s: Snap, token: nat, r: Snap)
    requires Exclusive(s) && token in s.inflight && Released(s, token, r)
    ensures Exclusive(r.(inflight := r.inflight - {token}))
  {
    assert InvOk(token, s.inflight[token]);
    ReleasedLockHeld(s, token, r);
    ReleasedSlots(s, token, r);
    ReleasedKeys(s, token, r);
  }

  lemma ReleasedLockHeld(s: Snap, token: nat, r: Snap)
    requires LockHeld(s) && LockUnique(s) && token in s.inflight && Released(s, token, r)
    ensures LockHeld(r.(inflight := r.inflight - {token}))
  {
    var f := r.(inflight := r.inflight - {token});
    if s.inflight[token].locked {
      forall t | t in f.inflight && f.inflight[t].locked
        ensures false
      {
        assert false;
      }
    } else if f.inTransition {
      var w :| w in s.inflight && s.inflight[w].locked;
      assert w in f.inflight && f.inflight[w].locked;
    }
  }

  lemma ReleasedSlots(s: Snap, token: nat, r: Snap)
    requires SlotsRegistered(s) && token in s.inflight && Released(s, token, r)
    requires s.inflight[token].slot.Some? ==> s.inflight[token].id == Some(token)
    ensures SlotsRegistered(r.(inflight := r.inflight - {token}))
  {
  }

  lemma ReleasedKeys(s: Snap, token: nat, r: Snap)
    requires KeysOwned(s) && SlotsRegistered(s) && token in s.inflight && Released(s, token, r)
    requires s.inflight[token].slot.Some? ==> s.inflight[token].id == Some(token)
    ensures KeysOwned(r.(inflight := r.inflight - {token}))
  {
    var f := r.(inflight := r.inflight - {token});
    forall y, k | y in f.states && k in f.states[y]
      ensures k.Some? && k.value in f.inflight && f.inflight[k.value].slot == Some(y)
    {
      assert k in s.states[y];
      if k.value == token {
        assert false;
      }
    }
  }

  /** A waiting parent resumes or fails holding what it held. */
  lemma ResumePreserves(d: Def, s: Snap, parent: Option<nat>, child: nat, outcome: Settled)
    requires Exclusive(s)
    ensures Exclusive(Resume(d, s, parent, child, outcome))
  {
    if parent.Some? && parent.value in s.inflight && s.inflight[parent.value].status.Awaiting?
       && s.inflight[parent.value].status.child == child {
      match outcome
      case Rejected(err) =>
        ThrowingPreserves(s, parent.value, err);
      case Resolved(_) =>
        if s.inflight[parent.value].status.thenFail {
          ThrowingPreserves(s, parent.value, FsmError(ChoiceOutOfRange, d.instance));
        } else {
          ResumeRunning(s, parent.value);
        }
    }
  }

  lemma ResumeRunning(s: Snap, t: nat)
    requires Exclusive(s) && t in s.inflight && s.inflight[t].status.Awaiting?
    ensures Exclusive(Next(s, t, s.inflight[t].(status := Running)))
  {
    assert InvOk(t, s.inflight[t]);
    NextOk(t, s.inflight[t].(status := Running));
    PutNext(s, t, s.inflight[t].(status := Running));
  }

  /** The end of a corrected chain keeps the exclusion invariant, however it ends. */
  lemma SettlePreserves(d: Def, s: Snap, token: nat)
    requires Exclusive(s) && CanSettle(s, token)
    ensures Exclusive(Settle(Corrected, d, s, token).0)
  {
    var inv := s.inflight[token];
    assert InvOk(token, inv);
    if inv.status.Failing? {
      var (r, err) := Revert(Corrected, d, s, inv, inv.status.err);
      RevertReleases(d, s, token, inv.status.err);
      ReleasedFree(s, token, r);
      ResumePreserves(d, r.(inflight := r.inflight - {token}), inv.parent, token, Rejected(err));
    } else {
      RemoveFree(s, token);
      ResumePreserves(d, s.(inflight := s.inflight - {token}), inv.parent, token, Resolved(ReturnValue(s, inv)));
    }
  }

  // ---------------------------------------------------------------------------
  // The whole machine
  // ---------------------------------------------------------------------------

  /** A machine starts unlocked with nothing in flight and, once built, every self-loop set empty. */
  lemma InitialExclusive(d: Def)
    requires Idle(d.t.states)
    ensures Exclusive(Initial(d))
  {
  }

  /** Every reachable snapshot of the corrected machine: built, then any trigger, stage or settle, in any order. */
  lemma StepPreserves(d: Def, s: Snap, name: string, args: seq<Value>, token: nat, reply: Reply)
    requires Exclusive(s)
    ensures Exclusive(Trigger(Corrected, d, s, name, args, None))
    ensures CanAdvance(s, token, reply) ==> Exclusive(Advance(Corrected, d, s, token, reply))
    ensures CanSettle(s, token) ==> Exclusive(Settle(Corrected, d, s, token).0)
  {
    TriggerPreserves(d, s, name, args, None);
    if CanAdvance(s, token, reply) {
      AdvancePreserves(d, s, token, reply);
    }
    if CanSettle(s, token) {
      SettlePreserves(d, s, token);
    }
  }

  // ---------------------------------------------------------------------------
  // What the invariant buys
  // ---------------------------------------------------------------------------

  /** Some invocation other than `token` holds the lock. */
  predicate LockedByOther(s: Snap, token: nat)
  {
    exists t :: t in s.inflight && t != token && s.inflight[t].locked
  }

  /** Some NOOP other than `token` is registered in state `x`. */
  predicate RegisteredIn(s: Snap, token: nat, x: string)
  {
    exists t :: t in s.inflight && t != token && s.inflight[t].slot == Some(x)
  }

  /**
   * An INTER transition gets past the guard exactly when the current state is
   * known, no other invocation holds the lock and no NOOP is registered in the
   * current state.
   */
  lemma InterGuard(d: Def, s: Snap, token: nat)
    requires Exclusive(s) && token in s.inflight && s.inflight[token].status == Running
    requires s.inflight[token].pc < |s.inflight[token].stages|
    requires s.inflight[token].stages[s.inflight[token].pc] == Guard
    requires s.inflight[token].Kind() == Inter
    ensures GuardStep(Corrected, d, s, token, s.inflight[token]).inflight[token].status == Running
        <==> s.current in s.states && !LockedByOther(s, token) && !RegisteredIn(s, token, s.current)
  {
    assert InvOk(token, s.inflight[token]);
    GuardIsSecond(s.inflight[token]);
    if s.current in s.states {
      if s.states[s.current] != {} {
        var k :| k in s.states[s.current];
        assert k.value != token;
        assert RegisteredIn(s, token, s.current);
      }
      if RegisteredIn(s, token, s.current) {
        var t :| t in s.inflight && t != token && s.inflight[t].slot == Some(s.current);
        assert Some(t) in s.states[s.current];
      }
      if s.inTransition {
        var w :| w in s.inflight && s.inflight[w].locked;
        assert LockedByOther(s, token);
      }
    }
  }

  /** A NOOP gets past the guard exactly when the current state is known and no invocation holds the lock. */
  lemma NoopGuard(d: Def, s: Snap, token: nat)
    requires Exclusive(s) && token in s.inflight && s.inflight[token].status == Running
    requires s.inflight[token].pc < |s.inflight[token].stages|
    requires s.inflight[token].stages[s.inflight[token].pc] == Guard
    requires s.inflight[token].Kind() == Noop
    ensures GuardStep(Corrected, d, s, token, s.inflight[token]).inflight[token].status == Running
        <==> s.current in s.states && !LockedByOther(s, token)
  {
    assert InvOk(token, s.inflight[token]);
    if s.inTransition {
      var w :| w in s.inflight && s.inflight[w].locked;
      assert LockedByOther(s, token);
    }
  }

  /** With nothing in flight the lock is free and every self-loop set is empty. */
  lemma Quiescent(s: Snap)
    requires Exclusive(s) && s.inflight == map[]
    ensures !s.inTransition && Idle(s.states)
  {
    forall x | x in s.states
      ensures s.states[x] == {}
    {
      OwnedKeys(s, x);
    }
  }

  lemma OwnedKeys(s: Snap, x: string)
    requires KeysOwned(s) && x in s.states
    ensures forall k :: k in s.states[x] ==> k.Some? && k.value in s.inflight
  {
  }

  /** Every enabled action keeps the invariant. */
  lemma ApplyPreserves(d: Def, s: Snap, a: Action)
    requires Exclusive(s) && Apply(Corrected, d, s, a).Some?
    ensures Exclusive(Apply(Corrected, d, s, a).value)
  {
    match a
    case Fire(name, args) => TriggerPreserves(d, s, name, args, None);
    case Step(token, reply) => AdvancePreserves(d, s, token, reply);
    case Finish(token) => SettlePreserves(d, s, token);
  }

  lemma {:induction false} RunPreserves(d: Def, s: Snap, acts: seq<Action>)
    requires Exclusive(s) && Run(Corrected, d, s, acts).Some?
    ensures Exclusive(Run(Corrected, d, s, acts).value)
    decreases |acts|
  {
    if acts != [] {
      ApplyPreserves(d, s, acts[0]);
      RunPreserves(d, Apply(Corrected, d, s, acts[0]).value, acts[1..]);
    }
  }

  /**
   * The main result: in a machine compiled from any configuration, every
   * snapshot reached by any interleaving of triggers, stages and settlements
   * keeps the lock with at most one INTER and the self-loop sets exact.
   */
  lemma ReachableExclusive(es: seq<EventSpec>, userHooks: set<string>, initial: string, final: Final,
                           instance: nat, acts: seq<Action>)
    requires Build(es, userHooks).Success?
    requires Run(Corrected, Def(Build(es, userHooks).value, initial, final, instance),
                 Initial(Def(Build(es, userHooks).value, initial, final, instance)), acts).Some?
    ensures Exclusive(Run(Corrected, Def(Build(es, userHooks).value, initial, final, instance),
                          Initial(Def(Build(es, userHooks).value, initial, final, instance)), acts).value)
  {
    var d := Def(Build(es, userHooks).value, initial, final, instance);
    BuildIdle(es, userHooks);
    InitialExclusive(d);
    RunPreserves(d, Initial(d), acts);
  }
}
