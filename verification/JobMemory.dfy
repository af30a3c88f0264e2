/** What a Studio process holds of its jobs in memory, against what is stored. */
module JobMemory {
  import opened Results
  import opened JobHistory

  // --- prefixes of runs ---------------------------------------------------------

  lemma {:induction false} Split(s: Studio, a: seq<Action>, b: seq<Action>)
    requires Runs(s, a + b)
    ensures Runs(s, a) && Runs(After(s, a), b) && After(s, a + b) == After(After(s, a), b)
    decreases |a|
  {
    if a == [] {
      assert a + b == b;
    } else {
      assert (a + b)[1..] == a[1..] + b;
      Split(Apply(s, a[0]), a[1..], b);
    }
  }

  lemma {:induction false} LastStep(s: Studio, trace: seq<Action>, n: nat)
    requires Runs(s, trace) && n < |trace|
    ensures Runs(s, trace[..n]) && Enabled(After(s, trace[..n]), trace[n])
    ensures Runs(s, trace[..n + 1]) && After(s, trace[..n + 1]) == Apply(After(s, trace[..n]), trace[n])
  {
    var rest := trace[n..];
    assert trace == trace[..n] + rest && trace == trace[..n + 1] + trace[n + 1..];
    Split(s, trace[..n], rest);
    Split(s, trace[..n + 1], trace[n + 1..]);
    assert trace[..n + 1] == trace[..n] + [trace[n]];
    Split(s, trace[..n], [trace[n]]);
    assert ([trace[n]])[1..] == [];
  }

  // --- where a job in memory comes from ---------------------------------------------

  // The process is the same one from step `k` on.
  ghost predicate Lives(trace: seq<Action>, p: Pid, k: nat) {
    forall i | k <= i < |trace| :: trace[i] != Crash(p)
  }

  /** What a process makes of a record it reads. */
  function Settled(stored: Status): Status { if Terminal(stored) then stored else Failed }

  /** The job was read at step `k`, is held as it was settled then, and not terminal ones were stored so. */
  ghost predicate ReadAt(s: Studio, trace: seq<Action>, p: Pid, j: JobId, status: Status, k: nat)
    requires Runs(s, trace)
  {
    && k < |trace| && trace[k].Load? && trace[k].p == p && trace[k].j == j && trace[k].readable && Lives(trace, p, k)
    && Runs(s, trace[..k]) && j in After(s, trace[..k]).disk
    && var stored := After(s, trace[..k]).disk[j];
    status == Settled(stored) && (Terminal(stored) || trace[k].saved)
  }

  ghost predicate AdmittedAt(trace: seq<Action>, p: Pid, j: JobId, k: nat) {
    k < |trace| && trace[k] == Create(p, j, Threaded) && Lives(trace, p, k)
  }

  ghost predicate Explained(s: Studio, trace: seq<Action>, p: Pid, j: JobId, status: Status)
    requires Runs(s, trace)
  {
    (exists k: nat :: ReadAt(s, trace, p, j, status, k)) || (exists k: nat :: AdmittedAt(trace, p, j, k))
  }

  ghost predicate Known(s: Studio, trace: seq<Action>, p: Pid, j: JobId)
    requires Runs(s, trace)
  {
    var end := After(s, trace);
    p in end.managers && j in end.managers[p].jobs ==> Explained(s, trace, p, j, end.managers[p].jobs[j])
  }

  // A step leaves other jobs of a process alone.
  lemma {:induction false} StepKeeps(s: Studio, a: Action, p: Pid, j: JobId)
    requires Inv(s) && Enabled(s, a)
    requires p in Apply(s, a).managers && j in Apply(s, a).managers[p].jobs
    ensures a != Crash(p)
    ensures
      || (p in s.managers && j in s.managers[p].jobs && Apply(s, a).managers[p].jobs[j] == s.managers[p].jobs[j])
      || (p in s.managers && s.managers[p].thread == Some(j) && j in s.managers[p].jobs)
      || (a.Load? && a.p == p && a.j == j && a.readable && j in s.disk
          && Apply(s, a).managers[p].jobs[j] == Settled(s.disk[j]) && (Terminal(s.disk[j]) || a.saved))
      || a == Create(p, j, Threaded)
  {
    assert p in s.managers ==> ManagerOk(s, p, s.managers[p]);
  }

  // A job with a thread was admitted by the process itself.
  ghost predicate ThreadKnown(s: Studio, trace: seq<Action>, p: Pid)
    requires Runs(s, trace)
  {
    var end := After(s, trace);
    p in end.managers && end.managers[p].thread.Some? ==>
      exists k: nat :: AdmittedAt(trace, p, end.managers[p].thread.value, k)
  }

  lemma {:induction false} ThreadStep(s: Studio, a: Action, p: Pid)
    requires Enabled(s, a) && p in Apply(s, a).managers && Apply(s, a).managers[p].thread.Some?
    ensures a != Crash(p)
    ensures (p in s.managers && s.managers[p].thread == Apply(s, a).managers[p].thread)
            || a == Create(p, Apply(s, a).managers[p].thread.value, Threaded)
  {
  }

  lemma {:induction false} LivesLonger(trace: seq<Action>, p: Pid, n: nat, k: nat)
    requires n < |trace| && trace[n] != Crash(p) && k <= n && Lives(trace[..n], p, k)
    ensures Lives(trace[..n + 1], p, k)
  {
    var longer := trace[..n + 1];
    forall i | k <= i < |longer| ensures longer[i] != Crash(p) {
      if i < n { assert longer[i] == trace[..n][i]; }
    }
  }

  lemma {:induction false} AdmittedLater(trace: seq<Action>, p: Pid, j: JobId, n: nat, k: nat)
    requires n < |trace| && trace[n] != Crash(p) && AdmittedAt(trace[..n], p, j, k)
    ensures AdmittedAt(trace[..n + 1], p, j, k)
  {
    LivesLonger(trace, p, n, k);
    assert trace[..n + 1][k] == trace[..n][k];
  }

  lemma {:induction false} ReadLater(s: Studio, trace: seq<Action>, p: Pid, j: JobId, status: Status, n: nat, k: nat)
    requires n < |trace| && Runs(s, trace[..n]) && Runs(s, trace[..n + 1]) && trace[n] != Crash(p)
    requires ReadAt(s, trace[..n], p, j, status, k)
    ensures ReadAt(s, trace[..n + 1], p, j, status, k)
  {
    LivesLonger(trace, p, n, k);
    assert trace[..n + 1][k] == trace[..n][k] && trace[..n + 1][..k] == trace[..n][..k];
  }

  lemma {:induction false} ThreadsKnown(s: Studio, trace: seq<Action>, p: Pid, n: nat)
    requires Runs(s, trace) && n <= |trace| && s.managers == map[]
    ensures Runs(s, trace[..n]) && ThreadKnown(s, trace[..n], p)
  {
    if n == 0 {
      assert trace[..0] == [];
    } else {
      ThreadsKnown(s, trace, p, n - 1);
      LastStep(s, trace, n - 1);
      var before, a := After(s, trace[..n - 1]), trace[n - 1];
      var end := Apply(before, a);
      if p in end.managers && end.managers[p].thread.Some? {
        var j := end.managers[p].thread.value;
        ThreadStep(before, a, p);
        if a == Create(p, j, Threaded) {
          assert AdmittedAt(trace[..n], p, j, n - 1);
        } else {
          var k: nat :| AdmittedAt(trace[..n - 1], p, j, k);
          AdmittedLater(trace, p, j, n - 1, k);
        }
      }
    }
  }

  // The step `trace[n]` keeps what is known of the job.
  lemma {:induction false} KnownNext(s: Studio, trace: seq<Action>, p: Pid, j: JobId, n: nat)
    requires Inv(s) && Runs(s, trace) && n < |trace|
    requires Runs(s, trace[..n]) && Known(s, trace[..n], p, j) && ThreadKnown(s, trace[..n], p)
    ensures Runs(s, trace[..n + 1]) && Known(s, trace[..n + 1], p, j)
  {
    LastStep(s, trace, n);
    InvAfter(s, trace[..n]);
    var before, a := After(s, trace[..n]), trace[n];
    var end := Apply(before, a);
    if p in end.managers && j in end.managers[p].jobs {
      var status := end.managers[p].jobs[j];
      StepKeeps(before, a, p, j);
      if p in before.managers && j in before.managers[p].jobs && before.managers[p].jobs[j] == status {
        SameLater(s, trace, p, j, status, n);
      } else if a == Create(p, j, Threaded) {
        assert AdmittedAt(trace[..n + 1], p, j, n);
      } else if p in before.managers && before.managers[p].thread == Some(j) {
        var k: nat :| AdmittedAt(trace[..n], p, j, k);
        AdmittedLater(trace, p, j, n, k);
      } else {
        ReadNow(s, trace, p, j, status, n);
      }
    }
  }

  lemma {:induction false} SameLater(s: Studio, trace: seq<Action>, p: Pid, j: JobId, status: Status, n: nat)
    requires n < |trace| && Runs(s, trace[..n]) && Runs(s, trace[..n + 1]) && trace[n] != Crash(p)
    requires Explained(s, trace[..n], p, j, status)
    ensures Explained(s, trace[..n + 1], p, j, status)
  {
    if k: nat :| ReadAt(s, trace[..n], p, j, status, k) {
      ReadLater(s, trace, p, j, status, n, k);
    } else {
      var k: nat :| AdmittedAt(trace[..n], p, j, k);
      AdmittedLater(trace, p, j, n, k);
    }
  }

  lemma {:induction false} ReadNow(s: Studio, trace: seq<Action>, p: Pid, j: JobId, status: Status, n: nat)
    requires n < |trace| && Runs(s, trace[..n]) && Runs(s, trace[..n + 1])
    requires var a := trace[n]; a.Load? && a.p == p && a.j == j && a.readable
    requires j in After(s, trace[..n]).disk
    requires var stored := After(s, trace[..n]).disk[j];
             status == Settled(stored) && (Terminal(stored) || trace[n].saved)
    ensures ReadAt(s, trace[..n + 1], p, j, status, n)
  {
    assert trace[..n + 1][..n] == trace[..n];
  }

  /**
   Every job that a process holds it has either admitted itself, or read at one step as
   it was stored then; and one that was not terminal it has declared failed and stored so.
   */
  lemma {:induction false} MemoryOrigin(s: Studio, trace: seq<Action>, p: Pid, j: JobId)
    requires Inv(s) && Runs(s, trace) && s.managers == map[]
    ensures Known(s, trace, p, j)
  {
    OriginTo(s, trace, p, j, |trace|);
    assert trace[..|trace|] == trace;
  }

  lemma {:induction false} OriginTo(s: Studio, trace: seq<Action>, p: Pid, j: JobId, n: nat)
    requires Inv(s) && Runs(s, trace) && s.managers == map[] && n <= |trace|
    ensures Runs(s, trace[..n]) && Known(s, trace[..n], p, j)
  {
    if n == 0 {
      assert trace[..0] == [];
    } else {
      OriginTo(s, trace, p, j, n - 1);
      ThreadsKnown(s, trace, p, n - 1);
      KnownNext(s, trace, p, j, n - 1);
    }
  }

  // --- orderly histories ---------------------------------------------------------------

  lemma {:induction false} OrderlySplit(s: Studio, a: seq<Action>, b: seq<Action>)
    requires OrderlyRun(s, a + b) && Runs(s, a)
    ensures OrderlyRun(s, a) && OrderlyRun(After(s, a), b)
    decreases |a|
  {
    if a == [] {
      assert a + b == b;
    } else {
      assert (a + b)[1..] == a[1..] + b;
      OrderlySplit(Apply(s, a[0]), a[1..], b);
    }
  }

  // From step `k` of an orderly run on, history moves forward.
  lemma {:induction false} ForwardFrom(s: Studio, trace: seq<Action>, k: nat)
    requires Inv(s) && !Lingering(s) && OrderlyRun(s, trace) && k <= |trace|
    ensures Runs(s, trace) && Runs(s, trace[..k])
    ensures Monotone(After(s, trace[..k]).disk, After(s, trace).disk)
  {
    OrderlyRuns(s, trace);
    assert trace == trace[..k] + trace[k..];
    Split(s, trace[..k], trace[k..]);
    OrderlySplit(s, trace[..k], trace[k..]);
    StaysOrderly(s, trace[..k]);
    OrderlyHistory(After(s, trace[..k]), trace[k..]);
  }

  lemma {:induction false} ForwardTo(s: Studio, trace: seq<Action>, i: nat, k: nat)
    requires Inv(s) && !Lingering(s) && OrderlyRun(s, trace) && i <= k <= |trace|
    ensures Runs(s, trace[..i]) && Runs(s, trace[..k])
    ensures Monotone(After(s, trace[..i]).disk, After(s, trace[..k]).disk)
  {
    var part := trace[..k];
    assert trace == part + trace[k..];
    OrderlyRuns(s, trace);
    Split(s, part, trace[k..]);
    OrderlySplit(s, part, trace[k..]);
    ForwardFrom(s, part, i);
    assert part[..i] == trace[..i];
  }

  /** In an orderly history, what a process has read is what is stored, for as long as it lives. */
  lemma {:induction false} ReadIsStored(s: Studio, trace: seq<Action>, p: Pid, j: JobId, status: Status, k: nat)
    requires Inv(s) && !Lingering(s) && OrderlyRun(s, trace) && Runs(s, trace) && ReadAt(s, trace, p, j, status, k)
    ensures j in After(s, trace).disk && After(s, trace).disk[j] == status
  {
    LastStep(s, trace, k);
    ForwardFrom(s, trace, k + 1);
    var read := After(s, trace[..k]);
    assert Apply(read, trace[k]).disk[j] == status;
  }

  lemma {:induction false} LoadedIsStored(trace: seq<Action>, p: Pid, j: JobId)
    requires OrderlyRun(Init, trace) && Runs(Init, trace)
    requires p in After(Init, trace).managers && j in After(Init, trace).managers[p].jobs
    requires forall k: nat :: !AdmittedAt(trace, p, j, k)
    ensures j in After(Init, trace).disk && After(Init, trace).disk[j] == After(Init, trace).managers[p].jobs[j]
  {
    MemoryOrigin(Init, trace, p, j);
    var status := After(Init, trace).managers[p].jobs[j];
    var k: nat :| ReadAt(Init, trace, p, j, status, k);
    ReadIsStored(Init, trace, p, j, status, k);
  }

  // While it lives, a process that was there is there.
  lemma {:induction false} StillThere(s: Studio, trace: seq<Action>, p: Pid, low: nat, high: nat)
    requires Runs(s, trace) && low <= high <= |trace| && Lives(trace, p, low)
    requires Runs(s, trace[..low]) && p in After(s, trace[..low]).managers
    ensures Runs(s, trace[..high]) && p in After(s, trace[..high]).managers
    decreases high - low
  {
    if low < high {
      StillThere(s, trace, p, low, high - 1);
      LastStep(s, trace, high - 1);
    }
  }

  // The process was started at step `i`, and is still the same one.
  ghost predicate OpenedAt(trace: seq<Action>, p: Pid, i: nat) {
    i < |trace| && trace[i] == Open(p) && Lives(trace, p, i)
  }

  // What is stored before a process starts, it does not admit.
  lemma {:induction false} NotAdmitted(trace: seq<Action>, p: Pid, j: JobId, i: nat, k: nat)
    requires OrderlyRun(Init, trace) && Runs(Init, trace) && OpenedAt(trace, p, i)
    requires Runs(Init, trace[..i]) && j in After(Init, trace[..i]).disk
    ensures !AdmittedAt(trace, p, j, k)
  {
    if AdmittedAt(trace, p, j, k) {
      LastStep(Init, trace, i);
      LastStep(Init, trace, k);
      if k < i {
        StillThere(Init, trace, p, k + 1, i);
      } else {
        ForwardTo(Init, trace, i, k);
      }
    }
  }

  /** A status that is final when a process starts is the one it shows, whenever it shows the job. */
  lemma {:induction false} ShownAsStored(trace: seq<Action>, p: Pid, j: JobId, i: nat)
    requires OrderlyRun(Init, trace) && Runs(Init, trace) && OpenedAt(trace, p, i)
    requires Runs(Init, trace[..i]) && j in After(Init, trace[..i]).disk && Terminal(After(Init, trace[..i]).disk[j])
    requires p in After(Init, trace).managers && j in After(Init, trace).managers[p].jobs
    ensures After(Init, trace).managers[p].jobs[j] == After(Init, trace[..i]).disk[j]
  {
    forall k: nat ensures !AdmittedAt(trace, p, j, k) { NotAdmitted(trace, p, j, i, k); }
    LoadedIsStored(trace, p, j);
    ForwardFrom(Init, trace, i);
  }

  // --- a restart reads everything ---------------------------------------------------------

  ghost predicate Leads(s: Studio, trace: seq<Action>, end: Studio) {
    OrderlyRun(s, trace) && Runs(s, trace) && After(s, trace) == end
  }

  lemma {:induction false} First(s: Studio, a: Action, trace: seq<Action>, end: Studio)
    requires Enabled(s, a) && Orderly(s, a) && Leads(Apply(s, a), trace, end)
    ensures Leads(s, [a] + trace, end)
  {
    assert ([a] + trace)[1..] == trace;
  }

  /** Records as a restart leaves them: what was not final has failed. */
  function AllSettled(disk: map<JobId, Status>): map<JobId, Status> { map j | j in disk :: Settled(disk[j]) }

  // The records still to be read, in any order.
  ghost predicate Loads(trace: seq<Action>, p: Pid, todo: set<JobId>)
    decreases |trace|
  {
    if trace == [] then todo == {}
    else
      && trace[0].Load? && trace[0].p == p && trace[0].j in todo && trace[0].readable && trace[0].saved
      && Loads(trace[1..], p, todo - {trace[0].j})
  }

  // A restart in progress: what is not to be read any more is settled, and held.
  ghost predicate Restarting(s: Studio, p: Pid, disk: map<JobId, Status>) {
    && p in s.managers && s.disk.Keys == disk.Keys
    && var m := s.managers[p];
    && m.todo <= disk.Keys && m.jobs.Keys == disk.Keys - m.todo
    && (forall j | j in disk :: s.disk[j] == if j in m.todo then disk[j] else Settled(disk[j]))
    && (forall j | j in m.jobs :: m.jobs[j] == s.disk[j])
  }

  lemma {:induction false} LoadsRun(s: Studio, p: Pid, disk: map<JobId, Status>, trace: seq<Action>)
    requires Restarting(s, p, disk) && Loads(trace, p, s.managers[p].todo)
    ensures Leads(s, trace, With(s, p, s.managers[p].(jobs := AllSettled(disk), todo := {})).(disk := AllSettled(disk)))
    decreases |trace|
  {
    if trace == [] {
      assert s.disk == AllSettled(disk) && s.managers[p].jobs == AllSettled(disk);
      assert s.managers[p := s.managers[p]] == s.managers;
    } else {
      var a := trace[0];
      var z := Apply(s, a);
      LoadStep(s, p, disk, a);
      LoadsRun(z, p, disk, trace[1..]);
      var m := s.managers[p].(jobs := AllSettled(disk), todo := {});
      assert z.managers[p := m] == s.managers[p := m];
      First(s, a, trace[1..], With(s, p, m).(disk := AllSettled(disk)));
      assert [a] + trace[1..] == trace;
    }
  }

  lemma {:induction false} LoadStep(s: Studio, p: Pid, disk: map<JobId, Status>, a: Action)
    requires Restarting(s, p, disk) && a.Load? && a.p == p && a.j in s.managers[p].todo && a.readable && a.saved
    ensures Enabled(s, a)
    ensures
      var z := Apply(s, a);
      && Restarting(z, p, disk) && z.managers[p].todo == s.managers[p].todo - {a.j}
      && z == With(s, p, z.managers[p]).(disk := z.disk)
      && z.managers[p] == s.managers[p].(jobs := z.managers[p].jobs, todo := z.managers[p].todo)
  {
  }

  /**
   A restart that can read and store every record holds, in whatever order it reads them,
   exactly what is then stored: final statuses as they were, all others failed.
   */
  lemma {:induction false} RestartRun(s: Studio, p: Pid, trace: seq<Action>)
    requires Enabled(s, Open(p)) && Loads(trace, p, s.disk.Keys)
    ensures Leads(s, [Open(p)] + trace,
                  With(s, p, Manager(AllSettled(s.disk), None, true, {}))
                    .(service := Some(p), disk := AllSettled(s.disk)))
  {
    var z := Apply(s, Open(p));
    LoadsRun(z, p, s.disk, trace);
    var m := Manager(AllSettled(s.disk), None, true, {});
    assert z.managers[p := m] == s.managers[p := m];
    First(s, Open(p), trace, With(s, p, m).(service := Some(p), disk := AllSettled(s.disk)));
  }

  // --- the life of one job ------------------------------------------------------------------

  predicate Ready(s: Studio, p: Pid, j: JobId) {
    && p in s.managers && s.managers[p].serving && s.managers[p].todo == {} && s.managers[p].thread == None
    && j !in s.disk && j !in s.managers[p].jobs
  }

  /**
   A job that is admitted, makes progress and ends is held with its final status, and is
   stored as far as its records could be saved; the manager is then ready for the next one.
   */
  lemma {:induction false} JobLife(s: Studio, p: Pid, j: JobId, running: bool, saved: bool, final: Status, stored: bool)
    requires Ready(s, p, j) && Terminal(final)
    ensures Leads(s, [Create(p, j, Threaded)] + ([Update(p, running, saved)] + [Finish(p, final, stored)]),
                  With(s, p, s.managers[p].(jobs := s.managers[p].jobs[j := final]))
                    .(disk := s.disk[j := if stored then final else if running && saved then Running else Queued]))
  {
    var m := s.managers[p];
    var s1 := With(s, p, m.(jobs := m.jobs[j := Queued], thread := Some(j))).(disk := s.disk[j := Queued]);
    var status := if running then Running else Queued;
    var kept := if running && saved then Running else Queued;
    var s2 := With(s, p, m.(jobs := m.jobs[j := status], thread := Some(j))).(disk := s.disk[j := kept]);
    var s3 := With(s, p, m.(jobs := m.jobs[j := final])).(disk := s.disk[j := if stored then final else kept]);
    assert Apply(s, Create(p, j, Threaded)) == s1;
    UpdateIs(s, p, j, m, running, saved);
    FinishIs(s, p, j, m, status, kept, final, stored);
    First(s2, Finish(p, final, stored), [], s3);
    First(s1, Update(p, running, saved), [Finish(p, final, stored)], s3);
    First(s, Create(p, j, Threaded), [Update(p, running, saved)] + [Finish(p, final, stored)], s3);
    assert [Finish(p, final, stored)] + [] == [Finish(p, final, stored)];
  }

  lemma {:induction false} UpdateIs(s: Studio, p: Pid, j: JobId, m: Manager, running: bool, saved: bool)
    ensures
      var s1 := With(s, p, m.(jobs := m.jobs[j := Queued], thread := Some(j))).(disk := s.disk[j := Queued]);
      var status := if running then Running else Queued;
      && Enabled(s1, Update(p, running, saved))
      && Apply(s1, Update(p, running, saved)) ==
           With(s, p, m.(jobs := m.jobs[j := status], thread := Some(j)))
             .(disk := s.disk[j := if running && saved then Running else Queued])
  {
    var status := if running then Running else Queued;
    assert m.jobs[j := Queued][j := status] == m.jobs[j := status];
    assert s.disk[j := Queued][j := status] == s.disk[j := status];
    var m1 := m.(jobs := m.jobs[j := Queued], thread := Some(j));
    var m2 := m.(jobs := m.jobs[j := status], thread := Some(j));
    assert s.managers[p := m1][p := m2] == s.managers[p := m2];
  }

  lemma {:induction false} FinishIs(s: Studio, p: Pid, j: JobId, m: Manager, status: Status, kept: Status,
                                    final: Status, stored: bool)
    requires Terminal(final) && m.thread == None
    ensures
      var s2 := With(s, p, m.(jobs := m.jobs[j := status], thread := Some(j))).(disk := s.disk[j := kept]);
      && Enabled(s2, Finish(p, final, stored))
      && Apply(s2, Finish(p, final, stored)) ==
           With(s, p, m.(jobs := m.jobs[j := final])).(disk := s.disk[j := if stored then final else kept])
  {
    assert m.jobs[j := status][j := final] == m.jobs[j := final];
    assert s.disk[j := kept][j := final] == s.disk[j := final];
    var m1, m2 := m.(jobs := m.jobs[j := status], thread := Some(j)), m.(jobs := m.jobs[j := final]);
    assert s.managers[p := m1][p := m2] == s.managers[p := m2];
  }

  /** A request whose thread does not start leaves at most a queued record, which the next start fails. */
  lemma {:induction false} FailedRequest(s: Studio, p: Pid, j: JobId, created: Created)
    requires Ready(s, p, j) && !created.Threaded?
    ensures Enabled(s, Create(p, j, created))
    ensures
      var z := Apply(s, Create(p, j, created));
      && z == s.(disk := z.disk) && Ready(z, p, j) == created.NotSaved?
      && AllSettled(z.disk) == if created.NotSaved? then AllSettled(s.disk) else AllSettled(s.disk)[j := Failed]
  {
  }

  /** Shutdown frees the service for the next process, and a crash does. */
  lemma {:induction false} ServiceFreed(s: Studio, p: Pid, q: Pid)
    requires Inv(s) && s.service == Some(p) && q !in s.managers
    ensures s.managers[p].todo == {} ==> Enabled(s, Close(p)) && Enabled(Apply(s, Close(p)), Open(q))
    ensures s.managers[p].todo == {} ==>
              Apply(s, Close(p)) == With(s, p, s.managers[p].(serving := false)).(service := None)
    ensures Enabled(Apply(s, Crash(p)), Open(q)) && Apply(s, Crash(p)).disk == s.disk
    ensures p !in Apply(s, Crash(p)).managers && forall r | r in s.managers && r != p ::
              r in Apply(s, Crash(p)).managers && Apply(s, Crash(p)).managers[r] == s.managers[r]
  {
    assert ManagerOk(s, p, s.managers[p]);
  }
}
