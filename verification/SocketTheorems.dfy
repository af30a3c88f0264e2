/** What WebSocket ownership guarantees to a device, over every run. */
module SocketTheorems {
  import opened Results
  import opened SocketOwnership
  import opened SocketSafety

  ghost predicate Reaches(start: State, acts: seq<Action>, s: State) {
    Init(start) && Runs(start, acts) && s == After(start, acts)
  }

  // A task is about to put an event on the socket of its attempt.
  predicate Sending(s: State, t: nat, m: Move) {
    Sends(m) && Enabled(s, Action.Move(t, m))
  }

  /** `a` became durable owner before `b` did. */
  ghost predicate ActivatedBefore(s: State, a: nat, b: nat) {
    exists i, j :: 0 <= i < j < |s.activated| && s.activated[i] == a && s.activated[j] == b
  }

  /**
   Every event goes to the durable owner, which is the connection activated last, and
   belongs to the current session; the sender holds the lock of the device.
   */
  lemma {:induction false} SendGoesToOwner(start: State, acts: seq<Action>, s: State, t: nat, m: Move)
    requires Reaches(start, acts, s) && Sending(s, t, m)
    ensures
      var a := s.tasks[t].attempt;
      && s.device.owner == Some(a) && s.lock == Some(t)
      && s.activated != [] && s.activated[|s.activated| - 1] == a
      && a < |s.attempts| && s.attempts[a].session == s.device.session
  {
    InitInv(start);
    InvAfter(start, acts);
    assert TaskOk(s, t);
  }

  lemma {:induction false} HistoryGrows(s: State, act: Action)
    requires Inv(s) && Enabled(s, act)
    ensures s.activated <= Apply(s, act).activated
  {
    if act.Move? {
      MoveViews(s, act.t, act.m);
      var task := s.tasks[act.t];
      StepLocal(ViewOf(s, task.process), task.attempt, SessionOf(s, task.attempt), task.phase, act.m);
    }
  }

  lemma {:induction false} HistoryAfter(s: State, acts: seq<Action>)
    requires Inv(s) && Runs(s, acts)
    ensures s.activated <= After(s, acts).activated
    decreases |acts|
  {
    if acts != [] {
      HistoryGrows(s, acts[0]);
      InvPreserved(s, acts[0]);
      HistoryAfter(Apply(s, acts[0]), acts[1..]);
    }
  }

  lemma {:induction false} RunsSplit(s: State, a: seq<Action>, b: seq<Action>)
    requires Runs(s, a) && Runs(After(s, a), b)
    ensures Runs(s, a + b) && After(s, a + b) == After(After(s, a), b)
    decreases |a|
  {
    if a == [] {
      assert a + b == b;
    } else {
      assert (a + b)[1..] == a[1..] + b;
      RunsSplit(Apply(s, a[0]), a[1..], b);
    }
  }

  /** Once another connection was activated, nothing is ever sent on an earlier one again. */
  lemma {:induction false} SupersededForever(start: State, before: seq<Action>, s: State, later: seq<Action>, a: nat,
                                             b: nat, t: nat, m: Move)
    requires Reaches(start, before, s) && ActivatedBefore(s, a, b)
    requires Runs(s, later) && Sending(After(s, later), t, m)
    ensures After(s, later).tasks[t].attempt != a
  {
    InitInv(start);
    InvAfter(start, before);
    HistoryAfter(s, later);
    InvAfter(s, later);
    RunsSplit(start, before, later);
    var z := After(s, later);
    SendGoesToOwner(start, before + later, z, t, m);
    var i, j :| 0 <= i < j < |s.activated| && s.activated[i] == a && s.activated[j] == b;
    assert z.activated[i] == a;
  }

  /** A registry entry goes only by its own tasks, a newer owner, or a crash of its process. */
  lemma {:induction false} RegistryFate(start: State, acts: seq<Action>, s: State, act: Action, p: nat)
    requires Reaches(start, acts, s) && Enabled(s, act) && p in s.registry
    requires At(Apply(s, act).registry, p) != Some(s.registry[p])
    ensures
      || act == Crash(p)
      || (&& act.Move? && act.t in s.tasks && s.tasks[act.t].process == p
          && var who := s.tasks[act.t].attempt;
          || (who == s.registry[p] && p !in Apply(s, act).registry)
          || (act.m.Register? && At(Apply(s, act).registry, p) == Some(who) && ActivatedBefore(s, s.registry[p], who)))
  {
    InitInv(start);
    InvAfter(start, acts);
    if act.Move? { RegistryMove(s, act.t, act.m, p); }
  }

  // What registering does to an entry: the new one is the owner, activated last.
  lemma {:induction false} RegisteredLater(s: State, t: nat, p: nat)
    requires Inv(s) && t in s.tasks && s.tasks[t].phase == Activated && p in s.registry
    ensures s.registry[p] == s.tasks[t].attempt || ActivatedBefore(s, s.registry[p], s.tasks[t].attempt)
  {
    assert TaskOk(s, t) && EntryOk(s, p, s.registry[p]);
    var i :| 0 <= i < |s.activated| && s.activated[i] == s.registry[p];
    assert s.activated[|s.activated| - 1] == s.tasks[t].attempt;
  }

  lemma {:induction false} RegistryMove(s: State, t: nat, m: Move, p: nat)
    requires Inv(s) && Enabled(s, Action.Move(t, m)) && p in s.registry
    requires At(AfterMove(s, t, m).registry, p) != Some(s.registry[p])
    ensures
      && s.tasks[t].process == p
      && var who := s.tasks[t].attempt;
      || (who == s.registry[p] && p !in AfterMove(s, t, m).registry)
      || (m.Register? && At(AfterMove(s, t, m).registry, p) == Some(who) && ActivatedBefore(s, s.registry[p], who))
  {
    var task := s.tasks[t];
    MoveViews(s, t, m);
    StepLocal(ViewOf(s, task.process), task.attempt, SessionOf(s, task.attempt), task.phase, m);
    if task.phase == Activated { RegisteredLater(s, t, p); }
  }

  /** The durable owner changes only by an activation, a cutover, or its own tasks. */
  lemma {:induction false} OwnerFate(start: State, acts: seq<Action>, s: State, act: Action)
    requires Reaches(start, acts, s) && Enabled(s, act) && s.device.owner.Some?
    requires Apply(s, act).device.owner != s.device.owner
    ensures
      || act == Cutover
      || (&& act.Move? && act.t in s.tasks && s.lock == Some(act.t)
          && var who := s.tasks[act.t].attempt;
          || (who == s.device.owner.value && Apply(s, act).device.owner == None)
          || (Apply(s, act).device.owner == Some(who) && who !in s.activated
              && ActivatedBefore(Apply(s, act), s.device.owner.value, who)))
  {
    InitInv(start);
    InvAfter(start, acts);
    if act.Move? {
      MoveViews(s, act.t, act.m);
      var task := s.tasks[act.t];
      StepLocal(ViewOf(s, task.process), task.attempt, SessionOf(s, task.attempt), task.phase, act.m);
      assert TaskOk(s, act.t);
      var z := Apply(s, act);
      if z.device.owner == Some(task.attempt) {
        var n := |s.activated|;
        assert z.activated[n - 1] == s.device.owner.value && z.activated[n] == task.attempt;
      }
    }
  }

  /** Only the newest attempt of a process gets as far as the durable owner. */
  lemma {:induction false} NewestInstalls(start: State, acts: seq<Action>, s: State, t: nat)
    requires Reaches(start, acts, s) && Enabled(s, Action.Move(t, TakeInstall))
    requires var z := Apply(s, Action.Move(t, TakeInstall)); t in z.tasks && z.tasks[t].phase == Installing
    ensures
      var task := s.tasks[t];
      forall b: nat | task.attempt < b < |s.attempts| :: s.attempts[b].process != task.process
  {
    InitInv(start);
    InvAfter(start, acts);
    var task := s.tasks[t];
    assert At(s.pending, task.process) == Some(task.attempt);
    assert NewestOk(s, task.process, task.attempt);
  }
}
