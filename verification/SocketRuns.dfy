/** That connections are installed, events sent and owners cleared, not only when they may be. */
module SocketRuns {
  import opened Numbers
  import opened Results
  import opened SocketOwnership
  import opened SocketSafety
  import opened SocketTheorems

  // --- runs, one move after the other -----------------------------------------------------

  ghost predicate Leads(s: State, acts: seq<Action>, end: State) { Runs(s, acts) && After(s, acts) == end }

  lemma {:induction false} First(s: State, act: Action, acts: seq<Action>, end: State)
    requires Enabled(s, act) && Leads(Apply(s, act), acts, end)
    ensures Leads(s, [act] + acts, end)
  {
    assert ([act] + acts)[1..] == acts;
  }

  lemma {:induction false} Join(s: State, first: seq<Action>, mid: State, second: seq<Action>, end: State)
    requires Leads(s, first, mid) && Leads(mid, second, end)
    ensures Leads(s, first + second, end)
  {
    RunsSplit(s, first, second);
  }

  lemma {:induction false} FreshTask(s: State) returns (t: nat)
    ensures t !in s.tasks
  {
    t := Above(s.tasks.Keys);
    assert t !in s.tasks.Keys;
  }

  lemma {:induction false} PutBack(m: map<nat, nat>, p: nat)
    ensures Put(m, p, At(m, p)) == m
  {
    forall q ensures At(Put(m, p, At(m, p)), q) == At(m, q) {}
  }

  // The view of a task's process, and what its next step makes of it.
  function Next(s: State, t: nat, m: Move): SocketOwnership.Result
    requires t in s.tasks
  {
    Step(ViewOf(s, s.tasks[t].process), s.tasks[t].attempt, SessionOf(s, s.tasks[t].attempt), s.tasks[t].phase, m)
  }

  function ViewIn(s: State, t: nat): View
    requires t in s.tasks
  {
    ViewOf(s, s.tasks[t].process)
  }

  // The task goes on, and only takes, keeps or gives back the lock.
  function GoesOn(s: State, t: nat, phase: Phase): State
    requires t in s.tasks
  {
    s.(tasks := s.tasks[t := s.tasks[t].(phase := phase)], lock := if Locked(phase) then Some(t) else None)
  }

  function Ends(s: State, t: nat): State { s.(tasks := s.tasks - {t}, lock := None) }

  lemma {:induction false} GoesOnTo(s: State, t: nat, m: Move, phase: Phase)
    requires t in s.tasks && Next(s, t, m) == Go(ViewIn(s, t), phase)
    requires s.lock == None || s.lock == Some(t)
    ensures AfterMove(s, t, m) == GoesOn(s, t, phase)
  {
    PutBack(s.registry, s.tasks[t].process);
    PutBack(s.pending, s.tasks[t].process);
  }

  lemma {:induction false} EndsHere(s: State, t: nat, m: Move)
    requires t in s.tasks && Next(s, t, m) == SocketOwnership.Result(ViewIn(s, t).(locked := false), None)
    requires s.lock == None || s.lock == Some(t)
    ensures AfterMove(s, t, m) == Ends(s, t)
  {
    PutBack(s.registry, s.tasks[t].process);
    PutBack(s.pending, s.tasks[t].process);
  }

  // --- deliveries -----------------------------------------------------------------------------

  function Session(s: State, t: nat): nat
    requires t in s.tasks
  {
    SessionOf(s, s.tasks[t].attempt)
  }

  // The task's connection is still the registered one; it is the durable owner.
  predicate Registered(s: State, t: nat)
    requires t in s.tasks
  {
    At(s.registry, s.tasks[t].process) == Some(s.tasks[t].attempt)
  }

  predicate Owns(s: State, t: nat)
    requires t in s.tasks
  {
    Current(s.device, Session(s, t), s.tasks[t].attempt)
  }

  // The task ends, its connection leaves the registry, and ownership if it has it.
  function Dropped(s: State, t: nat): State
    requires t in s.tasks
  {
    var task := s.tasks[t];
    Ends(s, t).(registry := Put(s.registry, task.process, Popped(At(s.registry, task.process), task.attempt)),
                device := Cleared(s.device, Session(s, t), task.attempt))
  }

  // A delivery of the registered owner gets to send.
  lemma {:induction false} AdmittedRun(s: State, t: nat)
    requires t in s.tasks && s.tasks[t].phase == Fanned && s.lock == None && Registered(s, t) && Owns(s, t)
    ensures Leads(s, [Action.Move(t, TakeDelivery), Action.Move(t, Admit)], GoesOn(s, t, Phase.Sending))
    ensures SocketTheorems.Sending(GoesOn(s, t, Phase.Sending), t, Send(true))
  {
    var s1 := GoesOn(s, t, Admitted);
    GoesOnTo(s, t, TakeDelivery, Admitted);
    var s2 := GoesOn(s1, t, Phase.Sending);
    GoesOnTo(s1, t, Admit, Phase.Sending);
    First(s1, Action.Move(t, Admit), [], s2);
    First(s, Action.Move(t, TakeDelivery), [Action.Move(t, Admit)], s2);
    assert [Action.Move(t, TakeDelivery)] + [Action.Move(t, Admit)]
           == [Action.Move(t, TakeDelivery), Action.Move(t, Admit)];
    assert s2 == GoesOn(s, t, Phase.Sending);
  }

  lemma {:induction false} SentRun(s: State, t: nat)
    requires t in s.tasks && s.tasks[t].phase == Phase.Sending && s.lock == Some(t)
    ensures Leads(s, [Action.Move(t, Send(true))], Ends(s, t))
  {
    EndsHere(s, t, Send(true));
    First(s, Action.Move(t, Send(true)), [], Ends(s, t));
  }

  // Out of the registry, the delivery clears the owner.
  lemma {:induction false} DropRun(s: State, t: nat)
    requires t in s.tasks && s.tasks[t].phase == Dropping && s.lock == Some(t)
    ensures Leads(s, [Action.Move(t, Drop)],
                  Ends(s, t).(device := Cleared(s.device, Session(s, t), s.tasks[t].attempt)))
  {
    PutBack(s.registry, s.tasks[t].process);
    PutBack(s.pending, s.tasks[t].process);
    First(s, Action.Move(t, Drop), [], AfterMove(s, t, Drop));
  }

  // A send that failed, or a look that found another owner, of the registered connection.
  lemma {:induction false} RefusedRun(s: State, t: nat, m: Move)
    requires t in s.tasks && s.lock == Some(t) && Registered(s, t)
    requires (s.tasks[t].phase == Phase.Sending && m == Send(false))
             || (s.tasks[t].phase == Admitted && m == Admit && !Owns(s, t))
    ensures Leads(s, [Action.Move(t, m), Action.Move(t, Drop)], Dropped(s, t))
  {
    var s1 := AfterMove(s, t, m);
    PutBack(s.pending, s.tasks[t].process);
    assert s1 == GoesOn(s, t, Dropping).(registry := Put(s.registry, s.tasks[t].process, None));
    DropRun(s1, t);
    assert s1.tasks - {t} == s.tasks - {t};
    First(s, Action.Move(t, m), [Action.Move(t, Drop)], Dropped(s, t));
    assert [Action.Move(t, m)] + [Action.Move(t, Drop)] == [Action.Move(t, m), Action.Move(t, Drop)];
  }

  lemma {:induction false} MovedRun(s: State, t: nat)
    requires t in s.tasks && s.tasks[t].phase == Fanned && s.lock == None && !Registered(s, t)
    ensures Leads(s, [Action.Move(t, TakeDelivery)], Ends(s, t))
  {
    EndsHere(s, t, TakeDelivery);
    First(s, Action.Move(t, TakeDelivery), [], Ends(s, t));
  }

  lemma {:induction false} OwnedRun(s: State, t: nat, ok: bool) returns (acts: seq<Action>)
    requires t in s.tasks && s.tasks[t].phase == Phase.Sending && s.lock == Some(t) && Registered(s, t)
    ensures acts == if ok then [Action.Move(t, Send(true))] else [Action.Move(t, Send(false)), Action.Move(t, Drop)]
    ensures Leads(s, acts, if ok then Ends(s, t) else Dropped(s, t))
  {
    if ok {
      SentRun(s, t);
      acts := [Action.Move(t, Send(true))];
    } else {
      RefusedRun(s, t, Send(false));
      acts := [Action.Move(t, Send(false)), Action.Move(t, Drop)];
    }
  }

  lemma {:induction false} StaleRun(s: State, t: nat)
    requires t in s.tasks && s.tasks[t].phase == Fanned && s.lock == None && Registered(s, t) && !Owns(s, t)
    ensures Leads(s, [Action.Move(t, TakeDelivery)] + [Action.Move(t, Admit), Action.Move(t, Drop)], Dropped(s, t))
  {
    var s1 := GoesOn(s, t, Admitted);
    GoesOnTo(s, t, TakeDelivery, Admitted);
    RefusedRun(s1, t, Admit);
    assert s1.tasks - {t} == s.tasks - {t};
    First(s, Action.Move(t, TakeDelivery), [Action.Move(t, Admit), Action.Move(t, Drop)], Dropped(s, t));
  }

  // Only moves of this task.
  ghost predicate Only(acts: seq<Action>, t: nat) { forall i | 0 <= i < |acts| :: acts[i].Move? && acts[i].t == t }

  /**
   A delivery that finds the lock free does what its connection deserves: if that is no
   longer the registered one, nothing; if it is and owns the device, the event is sent,
   and if sending works nothing else changes; in every other case it is dropped.
   */
  lemma {:induction false} DeliveryOutcome(s: State, t: nat, ok: bool) returns (acts: seq<Action>)
    requires t in s.tasks && s.tasks[t].phase == Fanned && s.lock == None
    ensures Only(acts, t)
    ensures Leads(s, acts, if Registered(s, t) && !(Owns(s, t) && ok) then Dropped(s, t) else Ends(s, t))
    ensures Registered(s, t) && Owns(s, t) ==> Action.Move(t, Send(ok)) in acts
    ensures !(Registered(s, t) && Owns(s, t)) ==> forall a | a in acts :: a.Move? && !Sends(a.m)
  {
    if !Registered(s, t) {
      MovedRun(s, t);
      acts := [Action.Move(t, TakeDelivery)];
    } else if Owns(s, t) {
      AdmittedRun(s, t);
      var s2 := GoesOn(s, t, Phase.Sending);
      acts := OwnedRun(s2, t, ok);
      assert s2.tasks - {t} == s.tasks - {t};
      var end := if ok then Ends(s, t) else Dropped(s, t);
      Join(s, [Action.Move(t, TakeDelivery), Action.Move(t, Admit)], s2, acts, end);
      assert acts[0] == Action.Move(t, Send(ok));
      acts := [Action.Move(t, TakeDelivery), Action.Move(t, Admit)] + acts;
    } else {
      StaleRun(s, t);
      acts := [Action.Move(t, TakeDelivery)] + [Action.Move(t, Admit), Action.Move(t, Drop)];
    }
  }

  /** An event for a device with a registered owner is sent, and everything else stays as it is. */
  lemma {:induction false} DeliveryRun(s: State, p: nat) returns (t: nat, acts: seq<Action>)
    requires s.lock == None && p in s.registry
    requires Current(s.device, SessionOf(s, s.registry[p]), s.registry[p])
    ensures t !in s.tasks && Leads(s, [FanOut(t, p)] + acts, s) && Action.Move(t, Send(true)) in acts
  {
    t := FreshTask(s);
    var s1 := Apply(s, FanOut(t, p));
    acts := DeliveryOutcome(s1, t, true);
    assert Ends(s1, t) == s by { assert s1.tasks - {t} == s.tasks; }
    First(s, FanOut(t, p), acts, s);
  }

  // --- installing a connection ------------------------------------------------------------------

  datatype Fortune = Greeted | GreetingFailed | ReplyLost

  predicate Newest(s: State, t: nat)
    requires t in s.tasks
  {
    At(s.pending, s.tasks[t].process) == Some(s.tasks[t].attempt)
  }

  // The attempt is no longer the pending one, and has become durable owner.
  function Became(s: State, t: nat): State
    requires t in s.tasks
  {
    s.(pending := Put(s.pending, s.tasks[t].process, None), device := s.device.(owner := Some(s.tasks[t].attempt)),
       activated := s.activated + [s.tasks[t].attempt])
  }

  function Entered(s: State, t: nat): State
    requires t in s.tasks
  {
    s.(registry := Put(s.registry, s.tasks[t].process, Some(s.tasks[t].attempt)))
  }

  /** What a connection attempt that finds the lock free comes to. */
  function Installed(s: State, t: nat, fortune: Fortune): State
    requires t in s.tasks
  {
    if !Newest(s, t) then Ends(s, t)
    else if !MayActivate(s.device, Session(s, t)) then
      Ends(s, t).(pending := Put(s.pending, s.tasks[t].process, None))
    else
      match fortune
      case Greeted => Entered(Became(GoesOn(s, t, Live), t), t)
      case GreetingFailed => Dropped(Entered(Became(s, t), t), t)
      case ReplyLost => Ends(Became(s, t), t)
  }

  lemma {:induction false} TakeInstallRun(s: State, t: nat)
    requires t in s.tasks && s.tasks[t].phase == Starting && s.lock == None && Newest(s, t)
    ensures Leads(s, [Action.Move(t, TakeInstall)],
                  GoesOn(s, t, Installing).(pending := Put(s.pending, s.tasks[t].process, None)))
  {
    PutBack(s.registry, s.tasks[t].process);
    First(s, Action.Move(t, TakeInstall), [], AfterMove(s, t, TakeInstall));
  }

  lemma {:induction false} OutdatedRun(s: State, t: nat)
    requires t in s.tasks && s.tasks[t].phase == Starting && s.lock == None && !Newest(s, t)
    ensures Leads(s, [Action.Move(t, TakeInstall)], Ends(s, t))
  {
    EndsHere(s, t, TakeInstall);
    First(s, Action.Move(t, TakeInstall), [], Ends(s, t));
  }

  // Activation, with the attempt no longer pending.
  lemma {:induction false} ActivateRun(s: State, t: nat, outcome: Outcome)
    requires t in s.tasks && s.tasks[t].phase == Installing && s.lock == Some(t)
    requires At(s.pending, s.tasks[t].process) == None
    ensures Leads(s, [Action.Move(t, Activate(outcome))],
                  if outcome.Failed? || !MayActivate(s.device, Session(s, t)) then Ends(s, t)
                  else if outcome.Accepted? then Became(GoesOn(s, t, Activated), t) else Ends(Became(s, t), t))
  {
    PutBack(s.registry, s.tasks[t].process);
    PutBack(s.pending, s.tasks[t].process);
    assert Put(s.pending, s.tasks[t].process, None) == s.pending;
    First(s, Action.Move(t, Activate(outcome)), [], AfterMove(s, t, Activate(outcome)));
  }

  lemma {:induction false} RegisterRun(s: State, t: nat)
    requires t in s.tasks && s.tasks[t].phase == Activated && s.lock == Some(t)
    ensures Leads(s, [Action.Move(t, Register)], Entered(GoesOn(s, t, Greeting), t))
  {
    PutBack(s.pending, s.tasks[t].process);
    First(s, Action.Move(t, Register), [], AfterMove(s, t, Register));
  }

  lemma {:induction false} GreetRun(s: State, t: nat)
    requires t in s.tasks && s.tasks[t].phase == Greeting && s.lock == Some(t)
    ensures Leads(s, [Action.Move(t, Greet), Action.Move(t, GreetDone)], GoesOn(s, t, Live))
    ensures SocketTheorems.Sending(s, t, Greet)
  {
    var s1 := GoesOn(s, t, Greeting);
    GoesOnTo(s, t, Greet, Greeting);
    GoesOnTo(s1, t, GreetDone, Live);
    First(s1, Action.Move(t, GreetDone), [], GoesOn(s1, t, Live));
    First(s, Action.Move(t, Greet), [Action.Move(t, GreetDone)], GoesOn(s1, t, Live));
    assert [Action.Move(t, Greet)] + [Action.Move(t, GreetDone)] == [Action.Move(t, Greet), Action.Move(t, GreetDone)];
    assert GoesOn(s1, t, Live) == GoesOn(s, t, Live);
  }

  lemma {:induction false} UndoRun(s: State, t: nat)
    requires t in s.tasks && s.tasks[t].phase == Greeting && s.lock == Some(t)
    requires At(s.pending, s.tasks[t].process) == None
    ensures Leads(s, [Action.Move(t, GreetFail), Action.Move(t, Undo(true))], Dropped(s, t))
  {
    var s1 := GoesOn(s, t, Undoing);
    GoesOnTo(s, t, GreetFail, Undoing);
    PutBack(s.pending, s.tasks[t].process);
    assert AfterMove(s1, t, Undo(true)) == Dropped(s, t) by { assert s1.tasks - {t} == s.tasks - {t}; }
    First(s1, Action.Move(t, Undo(true)), [], Dropped(s, t));
    First(s, Action.Move(t, GreetFail), [Action.Move(t, Undo(true))], Dropped(s, t));
    assert [Action.Move(t, GreetFail)] + [Action.Move(t, Undo(true))]
           == [Action.Move(t, GreetFail), Action.Move(t, Undo(true))];
  }

  // From the registry on.
  lemma {:induction false} GreetedRun(s: State, t: nat, ok: bool) returns (acts: seq<Action>)
    requires t in s.tasks && s.tasks[t].phase == Activated && s.lock == Some(t)
    requires At(s.pending, s.tasks[t].process) == None
    ensures Only(acts, t)
    ensures Leads(s, acts, if ok then Entered(GoesOn(s, t, Live), t) else Dropped(Entered(s, t), t))
  {
    var s1 := Entered(GoesOn(s, t, Greeting), t);
    RegisterRun(s, t);
    if ok {
      GreetRun(s1, t);
      acts := [Action.Move(t, Greet), Action.Move(t, GreetDone)];
      assert GoesOn(s1, t, Live) == Entered(GoesOn(s, t, Live), t);
    } else {
      UndoRun(s1, t);
      acts := [Action.Move(t, GreetFail), Action.Move(t, Undo(true))];
      assert Dropped(s1, t) == Dropped(Entered(s, t), t) by { assert s1.tasks - {t} == s.tasks - {t}; }
    }
    Join(s, [Action.Move(t, Register)], s1, acts, if ok then GoesOn(s1, t, Live) else Dropped(s1, t));
    acts := [Action.Move(t, Register)] + acts;
  }

  // The attempt has the lock.
  lemma {:induction false} LockedInstall(s: State, t: nat, fortune: Fortune) returns (acts: seq<Action>)
    requires t in s.tasks && s.tasks[t].phase == Installing && s.lock == Some(t)
    requires At(s.pending, s.tasks[t].process) == None
    ensures Only(acts, t)
    ensures Leads(s, acts,
                  if !MayActivate(s.device, Session(s, t)) then Ends(s, t)
                  else
                    match fortune
                    case Greeted => Entered(Became(GoesOn(s, t, Live), t), t)
                    case GreetingFailed => Dropped(Entered(Became(s, t), t), t)
                    case ReplyLost => Ends(Became(s, t), t))
  {
    var outcome := if fortune.ReplyLost? then CommittedThenFailed else Accepted;
    ActivateRun(s, t, outcome);
    acts := [Action.Move(t, Activate(outcome))];
    if MayActivate(s.device, Session(s, t)) && !fortune.ReplyLost? {
      var s1 := Became(GoesOn(s, t, Activated), t);
      var more := GreetedRun(s1, t, fortune.Greeted?);
      if fortune.Greeted? {
        assert Entered(GoesOn(s1, t, Live), t) == Entered(Became(GoesOn(s, t, Live), t), t);
      } else {
        assert s1.tasks - {t} == s.tasks - {t};
        assert Dropped(Entered(s1, t), t) == Dropped(Entered(Became(s, t), t), t);
      }
      Join(s, acts, s1, more, if fortune.Greeted? then Entered(GoesOn(s1, t, Live), t) else Dropped(Entered(s1, t), t));
      acts := acts + more;
    }
  }

  lemma {:induction false} NewestRun(s: State, t: nat, fortune: Fortune) returns (acts: seq<Action>)
    requires t in s.tasks && s.tasks[t].phase == Starting && s.lock == None && Newest(s, t)
    ensures Only(acts, t) && Leads(s, acts, Installed(s, t, fortune))
  {
    var s1 := GoesOn(s, t, Installing).(pending := Put(s.pending, s.tasks[t].process, None));
    TakeInstallRun(s, t);
    acts := LockedInstall(s1, t, fortune);
    assert Put(s1.pending, s.tasks[t].process, None) == s1.pending;
    assert s1.tasks - {t} == s.tasks - {t};
    Join(s, [Action.Move(t, TakeInstall)], s1, acts, Installed(s, t, fortune));
    acts := [Action.Move(t, TakeInstall)] + acts;
  }

  /**
   A connection attempt that finds the lock free: an outdated one ends; so does one whose
   session is no longer the device's, or while another credential waits; the newest one of
   the current session becomes durable owner and is registered, unless greeting it fails.
   */
  lemma {:induction false} InstallOutcome(s: State, t: nat, fortune: Fortune) returns (acts: seq<Action>)
    requires t in s.tasks && s.tasks[t].phase == Starting && s.lock == None
    ensures Only(acts, t) && Leads(s, acts, Installed(s, t, fortune))
  {
    if Newest(s, t) {
      acts := NewestRun(s, t, fortune);
    } else {
      OutdatedRun(s, t);
      acts := [Action.Move(t, TakeInstall)];
    }
  }

  // --- a live connection, and its end -------------------------------------------------------------

  // The connection is gone altogether, also as an attempt.
  function Left(s: State, t: nat): State
    requires t in s.tasks
  {
    var task := s.tasks[t];
    Dropped(s, t).(pending := Put(s.pending, task.process, Popped(At(s.pending, task.process), task.attempt)))
  }

  const LEAVE: seq<Move> := [Evict, TakeClear, Clear(true)]

  function Moves(t: nat, moves: seq<Move>): (acts: seq<Action>)
    ensures |acts| == |moves| && forall i | 0 <= i < |acts| :: acts[i] == Action.Move(t, moves[i])
  {
    seq(|moves|, i requires 0 <= i < |moves| => Action.Move(t, moves[i]))
  }

  lemma {:induction false} FirstMove(s: State, t: nat, m: Move, moves: seq<Move>, end: State)
    requires Enabled(s, Action.Move(t, m)) && Leads(Apply(s, Action.Move(t, m)), Moves(t, moves), end)
    ensures Leads(s, Moves(t, [m] + moves), end)
  {
    First(s, Action.Move(t, m), Moves(t, moves), end);
    assert Moves(t, [m] + moves) == [Action.Move(t, m)] + Moves(t, moves);
  }

  // The connection waits for the lock, and clears the owner.
  lemma {:induction false} ClearRun(s: State, t: nat)
    requires t in s.tasks && s.tasks[t].phase == Evicting && s.lock == None
    ensures
      var task := s.tasks[t];
      Leads(s, Moves(t, [TakeClear, Clear(true)]),
            Ends(s, t).(device := Cleared(s.device, Session(s, t), task.attempt),
                        pending := Put(s.pending, task.process, Popped(At(s.pending, task.process), task.attempt))))
  {
    var s1 := GoesOn(s, t, Clearing);
    GoesOnTo(s, t, TakeClear, Clearing);
    PutBack(s.registry, s.tasks[t].process);
    assert s1.tasks - {t} == s.tasks - {t};
    var end := AfterMove(s1, t, Clear(true));
    FirstMove(s1, t, Clear(true), [], end);
    FirstMove(s, t, TakeClear, [Clear(true)], end);
    assert [TakeClear] + [Clear(true)] == [TakeClear, Clear(true)] && [Clear(true)] + [] == [Clear(true)];
  }

  // A broken or superseded connection is taken out, and nobody else is.
  lemma {:induction false} LeaveRun(s: State, t: nat)
    requires t in s.tasks && s.tasks[t].phase == Leaving && s.lock == None
    ensures Leads(s, Moves(t, LEAVE), Left(s, t))
  {
    var task := s.tasks[t];
    PutBack(s.pending, task.process);
    var s1 := AfterMove(s, t, Evict);
    assert s1 == s.(tasks := s.tasks[t := task.(phase := Evicting)],
                    registry := Put(s.registry, task.process, Popped(At(s.registry, task.process), task.attempt)));
    assert s1.tasks - {t} == s.tasks - {t};
    ClearRun(s1, t);
    FirstMove(s, t, Evict, [TakeClear, Clear(true)], Left(s, t));
    assert [Evict] + [TakeClear, Clear(true)] == LEAVE;
  }

  lemma {:induction false} LeavesSame(s: State, t: nat, phase: Phase)
    requires t in s.tasks && s.lock == None && !Locked(phase)
    ensures Left(GoesOn(s, t, phase), t) == Left(s, t)
  {
    assert GoesOn(s, t, phase).tasks - {t} == s.tasks - {t};
  }

  lemma {:induction false} CheckRun(s: State, t: nat, next: Phase)
    requires t in s.tasks && s.tasks[t].phase == Live && s.lock == None
    requires next == if Owns(s, t) then Live else Leaving
    ensures Leads(s, Moves(t, [Receive, Check]), GoesOn(s, t, next))
  {
    var s1 := GoesOn(s, t, Checking);
    GoesOnTo(s, t, Receive, Checking);
    GoesOnTo(s1, t, Check, next);
    assert GoesOn(s1, t, next) == GoesOn(s, t, next);
    FirstMove(s1, t, Check, [], GoesOn(s, t, next));
    FirstMove(s, t, Receive, [Check], GoesOn(s, t, next));
    assert [Receive] + [Check] == [Receive, Check] && [Check] + [] == [Check];
  }

  lemma {:induction false} StaysSame(s: State, t: nat)
    requires t in s.tasks && s.lock == None && !Locked(s.tasks[t].phase)
    ensures GoesOn(s, t, s.tasks[t].phase) == s
  {
    assert s.tasks[t := s.tasks[t].(phase := s.tasks[t].phase)] == s.tasks;
  }

  /**
   A message on a connection that owns the device changes nothing; on any other it ends
   the connection and takes out only what is its own.
   */
  lemma {:induction false} MessageOutcome(s: State, t: nat)
    requires t in s.tasks && s.tasks[t].phase == Live && s.lock == None
    ensures if Owns(s, t) then Leads(s, Moves(t, [Receive, Check]), s)
            else Leads(s, Moves(t, [Receive, Check]) + Moves(t, LEAVE), Left(s, t))
  {
    if Owns(s, t) {
      CheckRun(s, t, Live);
      StaysSame(s, t);
    } else {
      CheckRun(s, t, Leaving);
      LeaveRun(GoesOn(s, t, Leaving), t);
      LeavesSame(s, t, Leaving);
      Join(s, Moves(t, [Receive, Check]), GoesOn(s, t, Leaving), Moves(t, LEAVE), Left(s, t));
    }
  }

  // A connection whose peer can be found gone: not yet installed, idle, or checking a message.
  ghost predicate Listening(s: State, t: nat) {
    && t in s.tasks
    && var phase := s.tasks[t].phase;
    || ((phase == Live || phase == Starting) && s.lock == None)
    || (phase == Checking && s.lock == Some(t))
  }

  /** A peer that goes away, installed or not yet, is taken out in the same way. */
  lemma {:induction false} BreakOutcome(s: State, t: nat)
    requires Listening(s, t)
    ensures Leads(s, Moves(t, [Break] + LEAVE), Left(s.(lock := None), t))
  {
    PutBack(s.registry, s.tasks[t].process);
    PutBack(s.pending, s.tasks[t].process);
    var s0 := s.(lock := None);
    assert AfterMove(s, t, Break) == GoesOn(s0, t, Leaving);
    LeaveRun(GoesOn(s0, t, Leaving), t);
    LeavesSame(s0, t, Leaving);
    FirstMove(s, t, Break, LEAVE, Left(s0, t));
  }

  // A delivery between two calls, with or without the lock of the device.
  ghost predicate Delivering(s: State, t: nat) {
    && t in s.tasks
    && var phase := s.tasks[t].phase;
    || (phase == Fanned && s.lock == None)
    || ((phase == Admitted || phase == Sending || phase == Dropping) && s.lock == Some(t))
  }

  /** Wherever a delivery meets an error of the database or the lock, it gives its connection and the lock up. */
  lemma {:induction false} ErrorOutcome(s: State, t: nat)
    requires Delivering(s, t)
    ensures Leads(s, Moves(t, [DeliveryError, TakeClear, Clear(true)]), Left(s.(lock := None), t))
  {
    var task, end := s.tasks[t], Left(s.(lock := None), t);
    PutBack(s.pending, task.process);
    var s1 := AfterMove(s, t, DeliveryError);
    assert s1 == s.(lock := None, tasks := s.tasks[t := task.(phase := Evicting)],
                    registry := Put(s.registry, task.process, Popped(At(s.registry, task.process), task.attempt)));
    assert s1.tasks - {t} == s.tasks - {t};
    ClearRun(s1, t);
    FirstMove(s, t, DeliveryError, [TakeClear, Clear(true)], end);
    assert [DeliveryError] + [TakeClear, Clear(true)] == [DeliveryError, TakeClear, Clear(true)];
  }

  // --- why an entry or an owner goes ----------------------------------------------------------------

  /** The moves by which a task takes its own connection out of the registry. */
  predicate Evicts(s: State, t: nat, m: Move)
    requires t in s.tasks
  {
    match m
    case Undo(ok) => ok
    case Evict => true
    case Admit => !Owns(s, t)
    case Send(ok) => !ok
    case DeliveryError => true
    case _ => false
  }

  /** An entry disappears exactly by such a move of its own tasks. */
  lemma {:induction false} EntryGone(s: State, t: nat, m: Move, p: nat)
    requires Inv(s) && Enabled(s, Action.Move(t, m)) && p in s.registry
    ensures p !in AfterMove(s, t, m).registry <==>
              s.tasks[t].process == p && Registered(s, t) && Evicts(s, t, m)
  {
    MoveViews(s, t, m);
    assert At(AfterMove(s, t, m).registry, p) == None <==> p !in AfterMove(s, t, m).registry;
  }

  /** The moves by which a task clears the durable owner if it is its own connection. */
  predicate Clears(m: Move) { m == Undo(true) || m == Clear(true) || m.Drop? }

  lemma {:induction false} StepOwner(v: View, a: nat, session: nat, phase: Phase, m: Move)
    requires Fits(v, phase, m)
    ensures
      Step(v, a, session, phase, m).view.device.owner ==
        if m.Activate? && !m.outcome.Failed? && MayActivate(v.device, session) then Some(a)
        else if Clears(m) then Cleared(v.device, session, a).owner
        else v.device.owner
  {
  }

  /** The owner changes by a move exactly when it is activated, or cleared by its own tasks. */
  lemma {:induction false} OwnerCause(s: State, t: nat, m: Move)
    requires Inv(s) && Enabled(s, Action.Move(t, m))
    ensures
      var a := s.tasks[t].attempt;
      AfterMove(s, t, m).device.owner ==
        if m.Activate? && !m.outcome.Failed? && MayActivate(s.device, Session(s, t)) then Some(a)
        else if Clears(m) && s.device.owner == Some(a) then None
        else s.device.owner
  {
    assert TaskOk(s, t);
    StepOwner(ViewIn(s, t), s.tasks[t].attempt, Session(s, t), s.tasks[t].phase, m);
  }

  // --- from the start ----------------------------------------------------------------------------------

  // Process `p` delivers to `a`, which is the durable owner; other processes are as before.
  ghost predicate Connected(s: State, end: State, t: nat, p: nat, a: nat) {
    && a == |s.attempts| && end.attempts == s.attempts + [Attempt(p, s.device.session)]
    && end.tasks == s.tasks[t := Task(p, a, false, Live)] && end.lock == None
    && end.registry == s.registry[p := a] && end.pending == s.pending - {p}
    && end.device == s.device.(owner := Some(a)) && end.activated == s.activated + [a]
  }

  /** A ticket of the current session is enough to connect, whoever is connected already. */
  lemma {:induction false} ConnectRun(s: State, t: nat, p: nat) returns (acts: seq<Action>, end: State)
    requires s.lock == None && t !in s.tasks && !s.device.candidate
    ensures Leads(s, acts, end) && Connected(s, end, t, p, |s.attempts|)
  {
    var begin := Begin(t, p, s.device.session);
    var s1 := Apply(s, begin);
    acts := InstallOutcome(s1, t, Greeted);
    end := Installed(s1, t, Greeted);
    assert end.tasks == s.tasks[t := Task(p, |s.attempts|, false, Live)];
    assert end.pending == s.pending - {p};
    First(s, begin, acts, end);
    acts := [begin] + acts;
  }

  /** After a crash of the process that has the lock, and with it its tasks, others connect. */
  lemma {:induction false} CrashRecovers(s: State, p: nat, q: nat) returns (acts: seq<Action>, end: State, t: nat)
    requires Inv(s) && !s.device.candidate && (s.lock.Some? ==> s.tasks[s.lock.value].process == p)
    ensures
      var z := Apply(s, Crash(p));
      && Leads(s, [Crash(p)] + acts, end) && Connected(z, end, t, q, |s.attempts|)
      && z.device == s.device && z.attempts == s.attempts && z.activated == s.activated
      && p !in z.registry && p !in z.pending
      && (forall u :: u in z.tasks <==> u in s.tasks && s.tasks[u].process != p)
      && (forall r | r != p :: At(z.registry, r) == At(s.registry, r) && At(z.pending, r) == At(s.pending, r))
      && (forall u | u in z.tasks :: z.tasks[u] == s.tasks[u])
  {
    var z := Apply(s, Crash(p));
    t := FreshTask(z);
    acts, end := ConnectRun(z, t, q);
    First(s, Crash(p), acts, end);
  }

  ghost predicate SessionsOk(s: State) {
    forall i | 0 <= i < |s.attempts| :: s.attempts[i].session <= s.device.session
  }

  lemma {:induction false} SessionsKept(s: State, acts: seq<Action>)
    requires SessionsOk(s) && Runs(s, acts)
    ensures SessionsOk(After(s, acts)) && s.device.session <= After(s, acts).device.session
    ensures s.attempts <= After(s, acts).attempts
    decreases |acts|
  {
    if acts != [] {
      SessionsStep(s, acts[0]);
      SessionsKept(Apply(s, acts[0]), acts[1..]);
    }
  }

  lemma {:induction false} SessionsStep(s: State, act: Action)
    requires SessionsOk(s) && Enabled(s, act)
    ensures SessionsOk(Apply(s, act)) && s.device.session <= Apply(s, act).device.session
    ensures s.attempts <= Apply(s, act).attempts
  {
    if act.Move? {
      var task := s.tasks[act.t];
      StepSession(ViewOf(s, task.process), task.attempt, SessionOf(s, task.attempt), task.phase, act.m);
    }
  }

  lemma {:induction false} StepSession(v: View, a: nat, session: nat, phase: Phase, m: Move)
    ensures Step(v, a, session, phase, m).view.device.session == v.device.session
    ensures Step(v, a, session, phase, m).view.device.candidate == v.device.candidate
  {
  }

  /** After a cutover nothing is ever sent on a connection that was attempted before it. */
  lemma {:induction false} CutoverFences(start: State, before: seq<Action>, s: State, later: seq<Action>,
                                         t: nat, m: Move)
    requires Reaches(start, before, s) && Enabled(s, Cutover) && Runs(Apply(s, Cutover), later)
    requires SocketTheorems.Sending(After(Apply(s, Cutover), later), t, m)
    ensures After(Apply(s, Cutover), later).tasks[t].attempt >= |s.attempts|
  {
    var z, end := Apply(s, Cutover), After(Apply(s, Cutover), later);
    SessionsKept(start, before);
    SessionsKept(z, later);
    InitInv(start);
    InvAfter(start, before);
    InvPreserved(s, Cutover);
    InvAfter(z, later);
    assert TaskOk(end, t);
    var a := end.tasks[t].attempt;
    assert end.attempts[a].session == end.device.session > s.device.session;
    assert forall i | 0 <= i < |s.attempts| :: end.attempts[i] == s.attempts[i];
  }

  /** While another credential waits, no connection counts as current and none is activated. */
  lemma {:induction false} CandidateFences(s: State, t: nat)
    requires t in s.tasks
    ensures
      var z := Apply(s, Candidate(true));
      && !Owns(z, t) && !MayActivate(z.device, Session(z, t))
      && Apply(z, Candidate(s.device.candidate)) == s
  {
  }

  /** A first connection is installed, and an event is sent on it. */
  lemma {:induction false} FirstEvent(start: State, t: nat, p: nat)
    returns (before: seq<Action>, later: seq<Action>, u: nat)
    requires Init(start) && !start.device.candidate
    ensures Runs(start, before) && p in After(start, before).registry
    ensures Action.Move(u, Send(true)) in later
    ensures Leads(After(start, before), [FanOut(u, p)] + later, After(start, before))
  {
    var s;
    before, s := ConnectRun(start, t, p);
    assert SessionOf(s, 0) == s.attempts[0].session;
    u, later := DeliveryRun(s, p);
  }
}
