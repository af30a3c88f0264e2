/** Invariants of WebSocket ownership over all interleavings, crashes and cutovers. */
module SocketSafety {
  import opened Results
  import opened SocketOwnership

  // --- the invariant ---------------------------------------------------------------------

  ghost predicate LockOk(s: State) {
    && (s.lock.Some? ==> s.lock.value in s.tasks && Locked(s.tasks[s.lock.value].phase))
    && (forall t | t in s.tasks :: Locked(s.tasks[t].phase) ==> s.lock == Some(t))
  }

  predicate Fresh(phase: Phase) { phase.Starting? || phase.Installing? }

  predicate Owning(phase: Phase) { phase.Activated? || phase.Greeting? || phase.Sending? }

  predicate Delivers(phase: Phase) { phase.Fanned? || phase.Admitted? || phase.Sending? || phase.Dropping? }

  ghost predicate TaskOk(s: State, t: nat)
    requires t in s.tasks
  {
    var task := s.tasks[t];
    && task.attempt < |s.attempts| && s.attempts[task.attempt].process == task.process
    && (Fresh(task.phase) ==> task.attempt !in s.activated && !task.delivery)
    && (Owning(task.phase) ==> s.device.owner == Some(task.attempt))
    && (Delivers(task.phase) ==> task.delivery)
    && (task.delivery ==> task.attempt in s.activated)
    && (task.phase.Undoing? || task.phase.Live? || task.phase.Checking? ==> task.attempt in s.activated)
  }

  ghost predicate TasksOk(s: State) {
    && (forall t | t in s.tasks :: TaskOk(s, t))
    && (forall t, u | t in s.tasks && u in s.tasks && t != u ::
          Fresh(s.tasks[t].phase) && Fresh(s.tasks[u].phase) ==> s.tasks[t].attempt != s.tasks[u].attempt)
  }

  ghost predicate Unique(ids: seq<nat>) { forall i, j | 0 <= i < j < |ids| :: ids[i] != ids[j] }

  ghost predicate OwnerOk(s: State) {
    && Unique(s.activated)
    && (forall a | a in s.activated :: a < |s.attempts|)
    && (s.device.owner.Some? ==>
          && s.activated != [] && s.activated[|s.activated| - 1] == s.device.owner.value
          && s.device.owner.value < |s.attempts| && s.attempts[s.device.owner.value].session == s.device.session)
  }

  ghost predicate RegistryOk(s: State) {
    forall p | p in s.registry :: EntryOk(s, p, s.registry[p])
  }

  ghost predicate EntryOk(s: State, p: nat, a: nat) {
    a < |s.attempts| && s.attempts[a].process == p && a in s.activated
  }

  ghost predicate PendingOk(s: State) {
    forall p | p in s.pending :: NewestOk(s, p, s.pending[p])
  }

  // No attempt of this process began after `a`.
  ghost predicate NewestOk(s: State, p: nat, a: nat) {
    && a < |s.attempts| && s.attempts[a].process == p
    && forall b: nat | a < b < |s.attempts| :: s.attempts[b].process != p
  }

  ghost predicate Inv(s: State) {
    LockOk(s) && TasksOk(s) && OwnerOk(s) && RegistryOk(s) && PendingOk(s)
  }

  // --- a single move, seen from its process ------------------------------------------------

  // Device and history change only under the lock, and the history only by activation.
  lemma {:induction false} StepLocal(v: View, a: nat, session: nat, phase: Phase, m: Move)
    requires Fits(v, phase, m) && (Locked(phase) ==> v.locked)
    ensures
      var r := Step(v, a, session, phase, m);
      && (r.view.device.owner != v.device.owner ==> Locked(phase))
      && r.view.device.session == v.device.session
      && (r.view.activated == v.activated || (phase.Installing? && r.view.activated == v.activated + [a]))
      && (r.view.entry == v.entry || r.view.entry == None || (phase.Activated? && r.view.entry == Some(a)))
      && (r.view.entry != v.entry && r.view.entry == None ==> v.entry == Some(a))
      && (r.view.newest == v.newest || r.view.newest == None)
      && (r.view.newest != v.newest ==> v.newest == Some(a))
      && (r.view.device.owner == v.device.owner || (r.view.device.owner == None && v.device.owner == Some(a))
          || (phase.Installing? && r.view.device.owner == Some(a) && r.view.activated == v.activated + [a]
              && session == v.device.session))
      && (r.view.activated == v.activated + [a] ==> r.view.device.owner == Some(a) && session == v.device.session)
  {
  }

  // Who holds the lock afterwards.
  lemma {:induction false} StepLock(v: View, a: nat, session: nat, phase: Phase, m: Move)
    requires Fits(v, phase, m) && (Locked(phase) ==> v.locked)
    ensures
      var r := Step(v, a, session, phase, m);
      var holds := r.next.Some? && Locked(r.next.value);
      && (Locked(phase) ==> (r.view.locked <==> holds))
      && (!Locked(phase) && holds ==> !v.locked && r.view.locked)
      && (!Locked(phase) && !holds ==> r.view.locked == v.locked)
  {
  }

  // What the name of a phase says about its attempt.
  ghost predicate Placed(v: View, a: nat, phase: Phase) {
    && (Owning(phase) ==> v.device.owner == Some(a))
    && (Fresh(phase) ==> a !in v.activated)
    && (Owning(phase) || phase.Undoing? || phase.Live? || phase.Checking? || Delivers(phase) ==> a in v.activated)
  }

  lemma {:induction false} ActivationPlaced(v: View, a: nat, session: nat, phase: Phase, outcome: Outcome)
    requires Fits(v, phase, Activate(outcome)) && Step(v, a, session, phase, Activate(outcome)).next.Some?
    ensures
      var r := Step(v, a, session, phase, Activate(outcome));
      Placed(r.view, a, r.next.value)
  {
    assert a in v.activated + [a];
  }

  lemma {:induction false} OtherPlaced(v: View, a: nat, session: nat, phase: Phase, m: Move)
    requires Fits(v, phase, m) && Placed(v, a, phase) && !m.Activate? && Step(v, a, session, phase, m).next.Some?
    ensures
      var r := Step(v, a, session, phase, m);
      Placed(r.view, a, r.next.value)
  {
    var r := Step(v, a, session, phase, m);
    assert r.view.activated == v.activated;
    assert Owning(r.next.value) ==> r.view.device == v.device;
  }

  lemma {:induction false} StepPlaced(v: View, a: nat, session: nat, phase: Phase, m: Move)
    requires Fits(v, phase, m) && Placed(v, a, phase) && Step(v, a, session, phase, m).next.Some?
    ensures
      var r := Step(v, a, session, phase, m);
      Placed(r.view, a, r.next.value)
  {
    if m.Activate? { ActivationPlaced(v, a, session, phase, m.outcome); } else { OtherPlaced(v, a, session, phase, m); }
  }

  lemma {:induction false} StepNames(v: View, a: nat, session: nat, phase: Phase, m: Move)
    requires Fits(v, phase, m) && Step(v, a, session, phase, m).next.Some?
    ensures Fresh(Step(v, a, session, phase, m).next.value) ==> Fresh(phase)
    ensures Delivers(Step(v, a, session, phase, m).next.value) ==> Delivers(phase)
  {
  }

  // --- a move keeps the invariant ------------------------------------------------------------

  // What AfterMove does to a task, part by part.
  lemma {:induction false} MoveViews(s: State, t: nat, m: Move)
    requires Inv(s) && Enabled(s, Action.Move(t, m))
    ensures
      var task := s.tasks[t];
      var v := ViewOf(s, task.process);
      var r := Step(v, task.attempt, SessionOf(s, task.attempt), task.phase, m);
      var z := AfterMove(s, t, m);
      && Fits(v, task.phase, m) && (Locked(task.phase) ==> v.locked && s.lock == Some(t))
      && SessionOf(s, task.attempt) == s.attempts[task.attempt].session && task.attempt < |s.attempts|
      && z.device == r.view.device && z.activated == r.view.activated && z.attempts == s.attempts
      && (forall u | u in z.tasks && u != t :: u in s.tasks && z.tasks[u] == s.tasks[u])
      && (t in z.tasks <==> r.next.Some?)
      && (r.next.Some? ==> z.tasks[t] == task.(phase := r.next.value))
      && (forall p :: At(z.registry, p) == if p == task.process then r.view.entry else At(s.registry, p))
      && (forall p :: At(z.pending, p) == if p == task.process then r.view.newest else At(s.pending, p))
      && z.lock == (if r.view.locked == s.lock.Some? then s.lock else if r.view.locked then Some(t) else None)
  {
    assert TaskOk(s, t);
  }

  lemma {:induction false} MoveLock(s: State, t: nat, m: Move)
    requires Inv(s) && Enabled(s, Action.Move(t, m))
    ensures LockOk(AfterMove(s, t, m))
  {
    MoveViews(s, t, m);
    var task := s.tasks[t];
    StepLock(ViewOf(s, task.process), task.attempt, SessionOf(s, task.attempt), task.phase, m);
  }

  lemma {:induction false} MoveOwner(s: State, t: nat, m: Move)
    requires Inv(s) && Enabled(s, Action.Move(t, m))
    ensures OwnerOk(AfterMove(s, t, m))
    ensures AfterMove(s, t, m).device.owner != s.device.owner ==> s.lock == Some(t)
    ensures forall a | a in s.activated :: a in AfterMove(s, t, m).activated
  {
    MoveViews(s, t, m);
    var task := s.tasks[t];
    StepLocal(ViewOf(s, task.process), task.attempt, SessionOf(s, task.attempt), task.phase, m);
    assert TaskOk(s, t);
  }

  lemma {:induction false} MoveRegistry(s: State, t: nat, m: Move)
    requires Inv(s) && Enabled(s, Action.Move(t, m))
    ensures RegistryOk(AfterMove(s, t, m))
  {
    MoveViews(s, t, m);
    MoveOwner(s, t, m);
    var task, z := s.tasks[t], AfterMove(s, t, m);
    StepLocal(ViewOf(s, task.process), task.attempt, SessionOf(s, task.attempt), task.phase, m);
    assert TaskOk(s, t);
    forall p | p in z.registry ensures EntryOk(z, p, z.registry[p]) {
      assert At(z.registry, p) == Some(z.registry[p]);
      if p in s.registry { assert EntryOk(s, p, s.registry[p]); }
    }
  }

  lemma {:induction false} MovePending(s: State, t: nat, m: Move)
    requires Inv(s) && Enabled(s, Action.Move(t, m))
    ensures PendingOk(AfterMove(s, t, m))
  {
    MoveViews(s, t, m);
    var task, z := s.tasks[t], AfterMove(s, t, m);
    StepLocal(ViewOf(s, task.process), task.attempt, SessionOf(s, task.attempt), task.phase, m);
    forall p | p in z.pending ensures NewestOk(z, p, z.pending[p]) {
      assert At(z.pending, p) == Some(z.pending[p]);
      assert p in s.pending && NewestOk(s, p, s.pending[p]);
    }
  }

  // The moving task, and the tasks that stay as they are.
  lemma {:induction false} MoveSelf(s: State, t: nat, m: Move)
    requires Inv(s) && Enabled(s, Action.Move(t, m)) && t in AfterMove(s, t, m).tasks
    ensures TaskOk(AfterMove(s, t, m), t)
  {
    MoveViews(s, t, m);
    MoveOwner(s, t, m);
    assert TaskOk(s, t);
    var task := s.tasks[t];
    StepPlaced(ViewOf(s, task.process), task.attempt, SessionOf(s, task.attempt), task.phase, m);
    StepNames(ViewOf(s, task.process), task.attempt, SessionOf(s, task.attempt), task.phase, m);
  }

  lemma {:induction false} MoveOther(s: State, t: nat, m: Move, u: nat)
    requires Inv(s) && Enabled(s, Action.Move(t, m)) && u != t && u in AfterMove(s, t, m).tasks
    ensures TaskOk(AfterMove(s, t, m), u)
  {
    MoveViews(s, t, m);
    MoveOwner(s, t, m);
    assert TaskOk(s, t) && TaskOk(s, u);
    var task := s.tasks[t];
    StepLocal(ViewOf(s, task.process), task.attempt, SessionOf(s, task.attempt), task.phase, m);
  }

  lemma {:induction false} MoveFresh(s: State, t: nat, m: Move, u: nat)
    requires Inv(s) && Enabled(s, Action.Move(t, m)) && u in AfterMove(s, t, m).tasks
    ensures u in s.tasks && AfterMove(s, t, m).tasks[u].attempt == s.tasks[u].attempt
    ensures Fresh(AfterMove(s, t, m).tasks[u].phase) ==> Fresh(s.tasks[u].phase)
  {
    MoveViews(s, t, m);
    if u == t {
      var task := s.tasks[t];
      StepNames(ViewOf(s, task.process), task.attempt, SessionOf(s, task.attempt), task.phase, m);
    }
  }

  lemma {:induction false} MoveTasks(s: State, t: nat, m: Move)
    requires Inv(s) && Enabled(s, Action.Move(t, m))
    ensures TasksOk(AfterMove(s, t, m))
  {
    var z := AfterMove(s, t, m);
    forall u | u in z.tasks
      ensures TaskOk(z, u)
      ensures u in s.tasks && z.tasks[u].attempt == s.tasks[u].attempt
      ensures Fresh(z.tasks[u].phase) ==> Fresh(s.tasks[u].phase)
    {
      MoveFresh(s, t, m, u);
      if u == t { MoveSelf(s, t, m); } else { MoveOther(s, t, m, u); }
    }
  }

  lemma {:induction false} MovePreserves(s: State, t: nat, m: Move)
    requires Inv(s) && Enabled(s, Action.Move(t, m))
    ensures Inv(AfterMove(s, t, m))
  {
    MoveLock(s, t, m);
    MoveOwner(s, t, m);
    MoveRegistry(s, t, m);
    MovePending(s, t, m);
    MoveTasks(s, t, m);
  }

  // --- the other actions ------------------------------------------------------------------------

  lemma {:induction false} BeginPreserves(s: State, t: nat, p: nat, session: nat)
    requires Inv(s) && Enabled(s, Begin(t, p, session))
    ensures Inv(Apply(s, Begin(t, p, session)))
  {
    var z := Apply(s, Begin(t, p, session));
    forall u | u in z.tasks ensures TaskOk(z, u) { if u != t { assert TaskOk(s, u); } }
    forall q | q in z.registry ensures EntryOk(z, q, z.registry[q]) { assert EntryOk(s, q, s.registry[q]); }
    forall q | q in z.pending ensures NewestOk(z, q, z.pending[q]) {
      if q != p { assert NewestOk(s, q, s.pending[q]); }
    }
    forall u, w | u in z.tasks && w in z.tasks && u != w && Fresh(z.tasks[u].phase) && Fresh(z.tasks[w].phase)
      ensures z.tasks[u].attempt != z.tasks[w].attempt
    {
      if u != t { assert TaskOk(s, u); }
      if w != t { assert TaskOk(s, w); }
    }
  }

  lemma {:induction false} FanOutPreserves(s: State, t: nat, p: nat)
    requires Inv(s) && Enabled(s, FanOut(t, p))
    ensures Inv(Apply(s, FanOut(t, p)))
  {
    var z := Apply(s, FanOut(t, p));
    assert EntryOk(s, p, s.registry[p]);
    forall u | u in z.tasks ensures TaskOk(z, u) { if u != t { assert TaskOk(s, u); } }
    forall q | q in z.registry ensures EntryOk(z, q, z.registry[q]) { assert EntryOk(s, q, s.registry[q]); }
    forall q | q in z.pending ensures NewestOk(z, q, z.pending[q]) { assert NewestOk(s, q, s.pending[q]); }
  }

  lemma {:induction false} CrashPreserves(s: State, p: nat)
    requires Inv(s)
    ensures Inv(Apply(s, Crash(p)))
  {
    var z := Apply(s, Crash(p));
    forall u | u in z.tasks ensures TaskOk(z, u) { assert TaskOk(s, u); }
    forall q | q in z.registry ensures EntryOk(z, q, z.registry[q]) { assert EntryOk(s, q, s.registry[q]); }
    forall q | q in z.pending ensures NewestOk(z, q, z.pending[q]) { assert NewestOk(s, q, s.pending[q]); }
  }

  lemma {:induction false} CutoverPreserves(s: State)
    requires Inv(s) && Enabled(s, Cutover)
    ensures Inv(Apply(s, Cutover))
  {
    var z := Apply(s, Cutover);
    forall u | u in z.tasks ensures TaskOk(z, u) { assert TaskOk(s, u); }
    forall q | q in z.registry ensures EntryOk(z, q, z.registry[q]) { assert EntryOk(s, q, s.registry[q]); }
    forall q | q in z.pending ensures NewestOk(z, q, z.pending[q]) { assert NewestOk(s, q, s.pending[q]); }
  }

  lemma {:induction false} CandidatePreserves(s: State, waiting: bool)
    requires Inv(s)
    ensures Inv(Apply(s, Candidate(waiting)))
  {
    var z := Apply(s, Candidate(waiting));
    forall u | u in z.tasks ensures TaskOk(z, u) { assert TaskOk(s, u); }
    forall q | q in z.registry ensures EntryOk(z, q, z.registry[q]) { assert EntryOk(s, q, s.registry[q]); }
    forall q | q in z.pending ensures NewestOk(z, q, z.pending[q]) { assert NewestOk(s, q, s.pending[q]); }
  }

  /** Every action of every task, in any order, keeps the invariant. */
  lemma {:induction false} InvPreserved(s: State, act: Action)
    requires Inv(s) && Enabled(s, act)
    ensures Inv(Apply(s, act))
  {
    match act
    case Begin(t, p, session) => BeginPreserves(s, t, p, session);
    case FanOut(t, p) => FanOutPreserves(s, t, p);
    case Move(t, m) => MovePreserves(s, t, m);
    case Crash(p) => CrashPreserves(s, p);
    case Cutover => CutoverPreserves(s);
    case Candidate(waiting) => CandidatePreserves(s, waiting);
  }

  lemma {:induction false} InvAfter(s: State, acts: seq<Action>)
    requires Inv(s) && Runs(s, acts)
    ensures Inv(After(s, acts))
    decreases |acts|
  {
    if acts != [] {
      InvPreserved(s, acts[0]);
      InvAfter(Apply(s, acts[0]), acts[1..]);
    }
  }

  lemma {:induction false} InitInv(s: State)
    requires Init(s)
    ensures Inv(s)
  {
  }
}
