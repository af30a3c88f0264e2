/**
 The durable job records of one Studio state directory, over any number of
 successive (and, after a shutdown that timed out, overlapping) Studio processes.
 A record is replaced atomically by `_save`; every save may fail; a process may
 crash between any two steps.
 */
module JobHistory {
  import opened Numbers
  import opened Results

  type Pid = nat
  type JobId = nat

  datatype Status = Queued | Running | Completed | Failed | Cancelled

  predicate Terminal(s: Status) { s.Completed? || s.Failed? || s.Cancelled? }

  function Rank(s: Status): nat {
    if s.Queued? then 0 else if s.Running? then 1 else 2
  }

  datatype Manager = Manager(
    jobs: map<JobId, Status>,
    thread: Option<JobId>,     // the job whose thread is alive
    serving: bool,             // .service.lock is held
    todo: set<JobId>)          // records that `start` has not read yet

  datatype Studio = Studio(
    disk: map<JobId, Status>,
    service: Option<Pid>,      // owner of .service.lock
    managers: map<Pid, Manager>)

  const Init: Studio := Studio(map[], None, map[])

  datatype Created = NotSaved | SavedOnly | Threaded

  datatype Action =
    | Open(p: Pid)
    | Load(p: Pid, j: JobId, readable: bool, saved: bool)
    | Create(p: Pid, j: JobId, created: Created)
    | Update(p: Pid, running: bool, saved: bool)        // runner progress, or cancel
    | Finish(p: Pid, final: Status, saved: bool)
    | Close(p: Pid)
    | Crash(p: Pid)

  predicate Enabled(s: Studio, a: Action) {
    match a
    case Open(p) => p !in s.managers && s.service == None
    case Load(p, j, _, _) => p in s.managers && j in s.managers[p].todo && j in s.disk
    case Create(p, j, _) =>
      && p in s.managers && s.managers[p].serving && s.managers[p].todo == {}
      && s.managers[p].thread == None && j !in s.disk && j !in s.managers[p].jobs
    case Update(p, _, _) =>
      p in s.managers && s.managers[p].thread.Some? && s.managers[p].thread.value in s.managers[p].jobs
    case Finish(p, final, _) => p in s.managers && s.managers[p].thread.Some? && Terminal(final)
    // `close` drops the service lock whether or not the job thread has ended.
    case Close(p) => p in s.managers && s.managers[p].serving && s.managers[p].todo == {}
    case Crash(p) => p in s.managers
  }

  function Saved(s: Studio, j: JobId, status: Status, ok: bool): Studio {
    if ok then s.(disk := s.disk[j := status]) else s
  }

  function With(s: Studio, p: Pid, m: Manager): Studio { s.(managers := s.managers[p := m]) }

  function Apply(s: Studio, a: Action): Studio
    requires Enabled(s, a)
  {
    match a
    case Open(p) => With(s, p, Manager(map[], None, true, s.disk.Keys)).(service := Some(p))
    case Load(p, j, readable, saved) =>
      var m := s.managers[p].(todo := s.managers[p].todo - {j});
      if !readable then With(s, p, m)
      else if Terminal(s.disk[j]) then With(s, p, m.(jobs := m.jobs[j := s.disk[j]]))
      else if saved then Saved(With(s, p, m.(jobs := m.jobs[j := Failed])), j, Failed, true)
      else With(s, p, m)
    case Create(p, j, created) =>
      var m := s.managers[p];
      if created.NotSaved? then s
      else if created.SavedOnly? then Saved(s, j, Queued, true)
      else Saved(With(s, p, m.(jobs := m.jobs[j := Queued], thread := Some(j))), j, Queued, true)
    case Update(p, running, saved) =>
      var m := s.managers[p];
      var j := m.thread.value;
      var status := if running then Running else m.jobs[j];
      Saved(With(s, p, m.(jobs := m.jobs[j := status])), j, status, saved)
    case Finish(p, final, saved) =>
      var m := s.managers[p];
      var j := m.thread.value;
      Saved(With(s, p, m.(jobs := m.jobs[j := final], thread := None)), j, final, saved)
    case Close(p) => With(s, p, s.managers[p].(serving := false)).(service := None)
    case Crash(p) =>
      s.(managers := s.managers - {p}, service := if s.service == Some(p) then None else s.service)
  }

  ghost predicate Runs(s: Studio, trace: seq<Action>)
    decreases |trace|
  {
    trace == [] || (Enabled(s, trace[0]) && Runs(Apply(s, trace[0]), trace[1..]))
  }

  ghost function After(s: Studio, trace: seq<Action>): Studio
    requires Runs(s, trace)
    decreases |trace|
  {
    if trace == [] then s else After(Apply(s, trace[0]), trace[1..])
  }

  ghost predicate Reachable(s: Studio) {
    exists trace :: Runs(Init, trace) && After(Init, trace) == s
  }

  // --- the invariant of every run -------------------------------------------

  ghost predicate ManagerOk(s: Studio, p: Pid, m: Manager) {
    && (m.serving <==> s.service == Some(p))
    && (m.todo != {} ==> m.serving && m.thread == None)
    && m.todo <= s.disk.Keys
    && (forall j | j in m.jobs :: Terminal(m.jobs[j]) || m.thread == Some(j))
    && (m.thread.Some? ==>
          var j := m.thread.value;
          && j in m.jobs && !Terminal(m.jobs[j]) && j in s.disk
          && (s.disk[j].Failed? || Rank(s.disk[j]) <= Rank(m.jobs[j]))
          && (m.serving ==> !Terminal(s.disk[j])))
  }

  ghost predicate Apart(s: Studio, p: Pid, q: Pid) {
    p in s.managers && q in s.managers && p != q && s.managers[p].thread.Some? ==>
      s.managers[p].thread != s.managers[q].thread
  }

  ghost predicate Inv(s: Studio) {
    && (s.service.Some? ==> s.service.value in s.managers)
    && (forall p | p in s.managers :: ManagerOk(s, p, s.managers[p]))
    && (forall p, q :: Apart(s, p, q))
  }

  // Only the actor takes or drops the service lock.
  ghost predicate ServiceStep(s: Studio, s': Studio, p: Pid) {
    || s'.service == s.service
    || s.service == Some(p)
    || (s.service == None && s'.service == Some(p))
  }

  ghost predicate ActorView(s: Studio, s': Studio, p: Pid) {
    && s'.managers.Keys <= s.managers.Keys + {p}
    && (p in s'.managers ==> ManagerOk(s', p, s'.managers[p]))
    && ServiceStep(s, s', p)
    && (s'.service == Some(p) ==> p in s'.managers)
    && (s'.service.Some? && s'.service != Some(p) ==> s'.service == s.service)
  }

  // What another process sees: new records, or failures recorded by the serving process.
  ghost predicate OtherView(s: Studio, s': Studio, p: Pid, q: Pid)
    requires q in s.managers
  {
    && q in s'.managers && s'.managers[q] == s.managers[q]
    && s.disk.Keys <= s'.disk.Keys
    && (s.managers[q].thread.Some? ==>
          var j := s.managers[q].thread.value;
          && j in s.disk
          && (s'.disk[j] == s.disk[j] || (s'.disk[j] == Failed && !s.managers[q].serving))
          && (p in s'.managers ==> s'.managers[p].thread != Some(j)))
  }

  lemma {:induction false} ProcessActorOk(s: Studio, a: Action)
    requires a.Open? || a.Close? || a.Crash?
    requires Inv(s) && Enabled(s, a)
    ensures ActorView(s, Apply(s, a), a.p)
  {
    assert a.p in s.managers ==> ManagerOk(s, a.p, s.managers[a.p]);
  }

  lemma {:induction false} RecordActorOk(s: Studio, a: Action)
    requires a.Load? || a.Create?
    requires Inv(s) && Enabled(s, a)
    ensures ActorView(s, Apply(s, a), a.p)
  {
    assert ManagerOk(s, a.p, s.managers[a.p]);
  }

  lemma {:induction false} ThreadActorOk(s: Studio, a: Action)
    requires a.Update? || a.Finish?
    requires Inv(s) && Enabled(s, a)
    ensures ActorView(s, Apply(s, a), a.p)
  {
    assert ManagerOk(s, a.p, s.managers[a.p]);
  }

  lemma {:induction false} OthersOk(s: Studio, a: Action, q: Pid)
    requires Inv(s) && Enabled(s, a) && q in s.managers && q != a.p
    ensures OtherView(s, Apply(s, a), a.p, q)
  {
    assert ManagerOk(s, q, s.managers[q]);
    assert a.p in s.managers ==> ManagerOk(s, a.p, s.managers[a.p]);
    assert Apart(s, q, a.p) && Apart(s, a.p, q);
  }

  lemma {:induction false} BystanderOk(s: Studio, s': Studio, p: Pid, q: Pid)
    requires q in s.managers && q != p && ManagerOk(s, q, s.managers[q])
    requires OtherView(s, s', p, q)
    requires ServiceStep(s, s', p) && (s'.service.Some? && s'.service != Some(p) ==> s'.service == s.service)
    ensures ManagerOk(s', q, s'.managers[q])
  {
    assert s.service == Some(q) <==> s'.service == Some(q);
  }

  lemma {:induction false} ApartKept(s: Studio, s': Studio, p: Pid, q: Pid, r: Pid)
    requires Apart(s, q, r) && s'.managers.Keys <= s.managers.Keys + {p}
    requires q in s.managers && q != p ==> OtherView(s, s', p, q)
    requires r in s.managers && r != p ==> OtherView(s, s', p, r)
    ensures Apart(s', q, r)
  {
  }

  lemma {:induction false} ViewsSuffice(s: Studio, s': Studio, p: Pid)
    requires Inv(s) && ActorView(s, s', p)
    requires forall q | q in s.managers && q != p :: OtherView(s, s', p, q)
    ensures Inv(s')
  {
    forall q | q in s'.managers ensures ManagerOk(s', q, s'.managers[q]) {
      if q != p {
        assert OtherView(s, s', p, q);
        BystanderOk(s, s', p, q);
      }
    }
    forall q, r ensures Apart(s', q, r) {
      ApartKept(s, s', p, q, r);
    }
  }

  lemma {:induction false} InvPreserved(s: Studio, a: Action)
    requires Inv(s) && Enabled(s, a)
    ensures Inv(Apply(s, a))
  {
    if a.Load? || a.Create? {
      RecordActorOk(s, a);
    } else if a.Update? || a.Finish? {
      ThreadActorOk(s, a);
    } else {
      ProcessActorOk(s, a);
    }
    forall q | q in s.managers && q != a.p ensures OtherView(s, Apply(s, a), a.p, q) {
      OthersOk(s, a, q);
    }
    ViewsSuffice(s, Apply(s, a), a.p);
  }

  lemma {:induction false} InvAfter(s: Studio, trace: seq<Action>)
    requires Inv(s) && Runs(s, trace)
    ensures Inv(After(s, trace))
    decreases |trace|
  {
    if trace != [] {
      InvPreserved(s, trace[0]);
      InvAfter(Apply(s, trace[0]), trace[1..]);
    }
  }

  /** Whatever `start` has loaded is terminal until a request is admitted. */
  lemma {:induction false} LoadedJobsAreTerminal(s: Studio, p: Pid)
    requires Reachable(s) && p in s.managers && s.managers[p].thread == None
    ensures forall j | j in s.managers[p].jobs :: Terminal(s.managers[p].jobs[j])
  {
    var trace :| Runs(Init, trace) && After(Init, trace) == s;
    InvAfter(Init, trace);
    assert ManagerOk(s, p, s.managers[p]);
  }

  // --- monotone history -------------------------------------------------------

  /** No record is lost or moves backwards, and a terminal record never changes. */
  ghost predicate Monotone(earlier: map<JobId, Status>, later: map<JobId, Status>) {
    forall j | j in earlier ::
      && j in later && Rank(earlier[j]) <= Rank(later[j])
      && (Terminal(earlier[j]) ==> later[j] == earlier[j])
  }

  // A process that released the service lock while its job thread was still alive.
  ghost predicate Lingering(s: Studio) {
    exists p | p in s.managers :: s.managers[p].thread.Some? && !s.managers[p].serving
  }

  /** `close` that did not time out waiting for the job thread. */
  predicate Orderly(s: Studio, a: Action) {
    a.Close? && a.p in s.managers ==> s.managers[a.p].thread == None
  }

  ghost predicate OrderlyRun(s: Studio, trace: seq<Action>)
    decreases |trace|
  {
    trace == [] || (Enabled(s, trace[0]) && Orderly(s, trace[0]) && OrderlyRun(Apply(s, trace[0]), trace[1..]))
  }

  lemma {:induction false} OrderlyRuns(s: Studio, trace: seq<Action>)
    requires OrderlyRun(s, trace)
    ensures Runs(s, trace)
    decreases |trace|
  {
    if trace != [] { OrderlyRuns(Apply(s, trace[0]), trace[1..]); }
  }

  lemma {:induction false} OrderlyStep(s: Studio, a: Action)
    requires Inv(s) && !Lingering(s) && Enabled(s, a) && Orderly(s, a)
    ensures !Lingering(Apply(s, a)) && Monotone(s.disk, Apply(s, a).disk)
  {
    OrderlyForward(s, a);
    OrderlyThreads(s, a);
  }

  lemma {:induction false} OrderlyForward(s: Studio, a: Action)
    requires Inv(s) && !Lingering(s) && Enabled(s, a)
    ensures Monotone(s.disk, Apply(s, a).disk)
  {
    assert a.p in s.managers ==> ManagerOk(s, a.p, s.managers[a.p]);
  }

  lemma {:induction false} OrderlyThreads(s: Studio, a: Action)
    requires Inv(s) && !Lingering(s) && Enabled(s, a) && Orderly(s, a)
    ensures !Lingering(Apply(s, a))
  {
    assert a.p in s.managers ==> ManagerOk(s, a.p, s.managers[a.p]);
    var s' := Apply(s, a);
    forall p | p in s'.managers ensures s'.managers[p].thread.Some? ==> s'.managers[p].serving {
      assert p != a.p ==> p in s.managers && s'.managers[p] == s.managers[p];
    }
  }

  /** While every shutdown outlasts its job thread, history only moves forward. */
  lemma {:induction false} OrderlyHistory(s: Studio, trace: seq<Action>)
    requires Inv(s) && !Lingering(s) && OrderlyRun(s, trace)
    ensures Runs(s, trace) && Monotone(s.disk, After(s, trace).disk)
    decreases |trace|
  {
    if trace != [] {
      OrderlyStep(s, trace[0]);
      InvPreserved(s, trace[0]);
      OrderlyHistory(Apply(s, trace[0]), trace[1..]);
    }
  }

  // --- and exactly when it can fail -------------------------------------------

  ghost predicate Rewrites(s: Studio, trace: seq<Action>) {
    OrderlyRun(s, trace) && Runs(s, trace) && !Monotone(s.disk, After(s, trace).disk)
  }

  lemma {:induction false} Chain(s: Studio, trace: seq<Action>, a: Action)
    requires OrderlyRun(s, trace) && Runs(s, trace)
    requires Enabled(After(s, trace), a) && Orderly(After(s, trace), a)
    ensures OrderlyRun(s, trace + [a]) && Runs(s, trace + [a])
    ensures After(s, trace + [a]) == Apply(After(s, trace), a)
    decreases |trace|
  {
    if trace == [] {
      assert trace + [a] == [a];
    } else {
      assert (trace + [a])[1..] == trace[1..] + [a];
      Chain(Apply(s, trace[0]), trace[1..], a);
    }
  }

  // A restart declares the lingering job failed; then its thread stores its own verdict.
  lemma {:induction false} LingeringRewrites(s: Studio, p: Pid) returns (trace: seq<Action>)
    requires Inv(s) && p in s.managers && s.managers[p].thread.Some? && !s.managers[p].serving
    ensures OrderlyRun(s, trace) && Runs(s, trace)
    ensures var j := s.managers[p].thread.value;
      j in s.disk && j in After(s, trace).disk && After(s, trace).disk[j] == Completed
  {
    assert ManagerOk(s, p, s.managers[p]);
    trace := [];
    Chain(s, trace, Finish(p, Completed, true));
    trace := trace + [Finish(p, Completed, true)];
  }

  // From a lingering state, a record that is already terminal gets overwritten.
  lemma {:induction false} LingeringViolates(s: Studio, p: Pid) returns (prefix: seq<Action>, rest: seq<Action>)
    requires Inv(s) && p in s.managers && s.managers[p].thread.Some? && !s.managers[p].serving
    ensures OrderlyRun(s, prefix) && Runs(s, prefix)
    ensures Rewrites(After(s, prefix), rest)
  {
    var j := s.managers[p].thread.value;
    assert ManagerOk(s, p, s.managers[p]);
    prefix := [];
    if !Terminal(s.disk[j]) {
      if s.service.Some? {
        assert s.service.value != p;
        Chain(s, prefix, Crash(s.service.value));
        prefix := prefix + [Crash(s.service.value)];
      }
      var s1 := After(s, prefix);
      assert s1.service == None && s1.disk == s.disk && p in s1.managers && s1.managers[p] == s.managers[p];
      var q := Above(s1.managers.Keys);
      assert q !in s1.managers.Keys;
      Chain(s, prefix, Open(q));
      prefix := prefix + [Open(q)];
      Chain(s, prefix, Load(q, j, true, true));
      prefix := prefix + [Load(q, j, true, true)];
      OrderlyRuns(s, prefix);
      InvAfter(s, prefix);
    }
    var s2 := After(s, prefix);
    assert s2.disk[j] == Failed && p in s2.managers && s2.managers[p] == s.managers[p];
    rest := LingeringRewrites(s2, p);
    assert !Monotone(s2.disk, After(s2, rest).disk);
  }

  ghost predicate CanRewrite(s: Studio) {
    exists prefix: seq<Action>, rest: seq<Action> ::
      OrderlyRun(s, prefix) && Runs(s, prefix) && Rewrites(After(s, prefix), rest)
  }

  lemma {:induction false} StaysOrderly(s: Studio, trace: seq<Action>)
    requires Inv(s) && !Lingering(s) && OrderlyRun(s, trace) && Runs(s, trace)
    ensures Inv(After(s, trace)) && !Lingering(After(s, trace))
    decreases |trace|
  {
    if trace != [] {
      OrderlyStep(s, trace[0]);
      InvPreserved(s, trace[0]);
      StaysOrderly(Apply(s, trace[0]), trace[1..]);
    }
  }

  /**
   Without another timed-out shutdown, a stored record can still move backwards
   exactly when some process has dropped the service lock under a live job thread.
   */
  lemma {:induction false} HistoryFate(s: Studio)
    requires Reachable(s)
    ensures CanRewrite(s) <==> Lingering(s)
  {
    var trace :| Runs(Init, trace) && After(Init, trace) == s;
    InvAfter(Init, trace);
    if Lingering(s) {
      var p :| p in s.managers && s.managers[p].thread.Some? && !s.managers[p].serving;
      var prefix, rest := LingeringViolates(s, p);
      assert OrderlyRun(s, prefix) && Rewrites(After(s, prefix), rest);
    } else {
      forall prefix: seq<Action>, rest: seq<Action> | OrderlyRun(s, prefix) && Runs(s, prefix)
        ensures !Rewrites(After(s, prefix), rest)
      {
        StaysOrderly(s, prefix);
        if OrderlyRun(After(s, prefix), rest) { OrderlyHistory(After(s, prefix), rest); }
      }
    }
  }

  /** The lingering state is reached by a request and a shutdown that times out. */
  lemma {:induction false} TimedOutCloseLingers(p: Pid, j: JobId)
    ensures var trace := [Open(p), Create(p, j, Threaded), Close(p)];
      Runs(Init, trace) && Lingering(After(Init, trace))
  {
    var s1 := Apply(Init, Open(p));
    var s2 := Apply(s1, Create(p, j, Threaded));
    var s3 := Apply(s2, Close(p));
    var t3: seq<Action> := [];
    var t2 := [Close(p)];
    var t1 := [Create(p, j, Threaded), Close(p)];
    var t0 := [Open(p), Create(p, j, Threaded), Close(p)];
    assert t0[1..] == t1 && t1[1..] == t2 && t2[1..] == t3;
    assert Runs(s3, t3) && Runs(s2, t2) && Runs(s1, t1);
    assert After(Init, t0) == After(s1, t1) == After(s2, t2) == After(s3, t3) == s3;
    assert p in s3.managers && s3.managers[p].thread.Some? && !s3.managers[p].serving;
  }
}
