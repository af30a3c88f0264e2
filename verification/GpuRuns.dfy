/** That the shared GPU slot is given back: whole requests, jobs, renders and shutdowns. */
module GpuRuns {
  import opened Results
  import opened GpuSlot
  import opened GpuSafety
  import opened GpuTheorems

  // --- one process moves -------------------------------------------------------

  function With(s: Sys, p: Pid, h: Host, st: Studio): Sys { s.(host := h, studios := s.studios[p := st]) }

  lemma {:induction false} Again(s: Sys, p: Pid, h: Host, st: Studio, h': Host, st': Studio)
    ensures With(With(s, p, h, st), p, h', st') == With(s, p, h', st')
  {
    assert s.studios[p := st][p := st'] == s.studios[p := st'];
  }

  lemma {:induction false} Unmoved(s: Sys, p: Pid)
    requires p in s.studios
    ensures With(s, p, s.host, s.studios[p]) == s
  {
    assert s.studios[p := s.studios[p]] == s.studios;
  }

  // Every action of the run is one of this Studio's own, no crash among them.
  ghost predicate Own(trace: seq<Action>, p: Pid) {
    forall i | 0 <= i < |trace| :: StudioAction(trace[i]) && trace[i].p == p
  }

  /** From `h` and `st`, the Studio by its own steps gets to `h'` and `st'`. */
  ghost predicate Goes(p: Pid, h: Host, st: Studio, trace: seq<Action>, h': Host, st': Studio)
    decreases |trace|
  {
    if trace == [] then h' == h && st' == st
    else
      && StudioAction(trace[0]) && trace[0].p == p && StudioEnabled(h, st, trace[0])
      && var (h1, st1) := StudioApply(h, st, trace[0]);
      Goes(p, h1, st1, trace[1..], h', st')
  }

  lemma {:induction false} GoesFirst(p: Pid, h: Host, st: Studio, a: Action, h1: Host, st1: Studio, trace: seq<Action>,
                                     h': Host, st': Studio)
    requires StudioAction(a) && a.p == p && StudioEnabled(h, st, a) && StudioApply(h, st, a) == (h1, st1)
    requires Goes(p, h1, st1, trace, h', st')
    ensures Goes(p, h, st, [a] + trace, h', st')
  {
    assert ([a] + trace)[1..] == trace;
  }

  lemma {:induction false} GoesOn(p: Pid, h: Host, st: Studio, first: seq<Action>, h1: Host, st1: Studio,
                                  second: seq<Action>, h': Host, st': Studio)
    requires Goes(p, h, st, first, h1, st1) && Goes(p, h1, st1, second, h', st')
    ensures Goes(p, h, st, first + second, h', st')
    decreases |first|
  {
    if first == [] {
      assert first + second == second;
    } else {
      var (h2, st2) := StudioApply(h, st, first[0]);
      GoesOn(p, h2, st2, first[1..], h1, st1, second, h', st');
      assert (first + second)[1..] == first[1..] + second;
    }
  }

  /** What a Studio can do by its own steps, the system can do. */
  lemma {:induction false} GoesLeads(s: Sys, p: Pid, trace: seq<Action>, h': Host, st': Studio)
    requires p in s.studios && Goes(p, s.host, s.studios[p], trace, h', st')
    ensures Leads(s, trace, With(s, p, h', st')) && Own(trace, p)
    decreases |trace|
  {
    if trace == [] {
      Unmoved(s, p);
    } else {
      var (h1, st1) := StudioApply(s.host, s.studios[p], trace[0]);
      var mid := With(s, p, h1, st1);
      GoesLeads(mid, p, trace[1..], h', st');
      Again(s, p, h1, st1, h', st');
      Prepend(s, trace[0], mid, trace[1..], With(s, p, h', st'));
      assert [trace[0]] + trace[1..] == trace;
      forall i | 0 <= i < |trace| ensures StudioAction(trace[i]) && trace[i].p == p {
        if i > 0 { assert trace[i] == trace[1..][i - 1]; }
      }
    }
  }

  // --- renderers that end by themselves -------------------------------------------

  /** A renderer that ends by itself, or a container that somebody removes, is one less. */
  lemma {:induction false} AliveEnds(s: Sys, a: Action)
    requires Enabled(s, a) && (a.OrphanEnds? || a.ContainerGone?)
    ensures Alive(Apply(s, a)) == Alive(s) - 1
  {
    if a.ContainerGone? { assert |s.host.containers - {a.c}| == |s.host.containers| - 1; }
  }

  /** A crash takes the renderer of its process along, unless that outlives it. */
  lemma {:induction false} AliveCrash(s: Sys, a: Action)
    requires Enabled(s, a) && (a.Crash? || a.CrashOutlived?)
    ensures Alive(Apply(s, a)) == Alive(s) - if a.Crash? && a.p in s.renders then 1 else 0
    ensures Apply(s, a).orphans == s.orphans + if a.CrashOutlived? then 1 else 0
  {
    OneLess(s.renders, a.p);
  }

  /** One whose worker gives up waiting for it stays alive beside the free slot. */
  lemma {:induction false} AliveAbandoned(s: Sys, p: Pid)
    requires Inv(s) && Enabled(s, Media(p, MediaAbandon))
    ensures
      var end := Apply(s, Media(p, MediaAbandon));
      Alive(end) == Alive(s) && end.orphans == s.orphans + 1 && end.host.owner == None
  {
    OneLess(s.renders, p);
  }

  lemma {:induction false} OneLess(renders: set<Pid>, p: Pid)
    ensures |renders - {p}| == |renders| - if p in renders then 1 else 0
  {
    if p !in renders { assert renders - {p} == renders; }
  }

  // --- a request ---------------------------------------------------------------

  /** How a request to create a job goes, once it has the lock of an empty file. */
  datatype Fortune = Rejected | WriteCut(count: nat) | SyncFailed | StartFailed | Admitted

  predicate Idle(st: Studio) { st.job.Out? && st.active == None && !st.lease && !st.blocked && !st.closing }

  function Leased(h: Host, p: Pid): Host { h.(owner := Some(ByLease(p))) }

  // Each container that recovery listed is removed, and then the own marker is cleared.
  lemma {:induction false} CreateSweeps(h: Host, st: Studio, p: Pid) returns (trace: seq<Action>)
    requires st.job.Cleaning?
    ensures Goes(p, h, st, trace, Host(Cleared(h.file, st.scope), h.owner, h.containers - st.job.todo),
                 st.(job := Inspect, pending := false))
    decreases |st.job.todo|
  {
    var h' := Host(Cleared(h.file, st.scope), h.owner, h.containers - st.job.todo);
    var st' := st.(job := Inspect, pending := false);
    if st.job.todo == {} {
      assert h.containers - {} == h.containers;
      GoesFirst(p, h, st, Create(p, CreateClear), h', st', [], h', st');
      trace := [Create(p, CreateClear)];
    } else {
      var c :| c in st.job.todo;
      var h1, st1 := h.(containers := h.containers - {c}), st.(job := Cleaning(st.job.todo - {c}));
      trace := CreateSweeps(h1, st1, p);
      assert h1.containers - st1.job.todo == h.containers - st.job.todo;
      GoesFirst(p, h, st, Create(p, CreateRemove(c)), h1, st1, trace, h', st');
      trace := [Create(p, CreateRemove(c))] + trace;
    }
  }

  /** A request with a recovery pending first removes what its own instance left, containers and marker. */
  lemma {:induction false} RecoveryRun(h: Host, st: Studio, p: Pid) returns (trace: seq<Action>)
    requires Idle(st) && h.owner == None && st.pending && !Foreign(h.file, st.scope)
    ensures Goes(p, h, st, trace, Host("", Some(ByLease(p)), h.containers - GpuSlot.Own(h, st.scope)),
                 st.(job := Inspect, lease := true, pending := false))
  {
    var h1, st1 := Leased(h, p), st.(job := Holding, lease := true);
    var st2 := st1.(job := Cleaning(GpuSlot.Own(h1, st.scope)));
    var h', st' := Host("", Some(ByLease(p)), h.containers - GpuSlot.Own(h, st.scope)),
      st1.(job := Inspect, pending := false);
    MarkerExact(h.file, st.scope);
    assert GpuSlot.Own(h1, st.scope) == GpuSlot.Own(h, st.scope);
    trace := CreateSweeps(h1, st2, p);
    GoesFirst(p, h1, st1, Create(p, CreateList), h1, st2, trace, h', st');
    trace := [Create(p, CreateList)] + trace;
    GoesFirst(p, h, st, Create(p, CreateAcquire), h1, st1, trace, h', st');
    trace := [Create(p, CreateAcquire)] + trace;
  }

  /** And then it starts its job, whatever an earlier process of the instance left behind. */
  lemma {:induction false} RecoveredRequest(h: Host, st: Studio, p: Pid, j: JobId) returns (trace: seq<Action>)
    requires Idle(st) && h.owner == None && st.pending && !Foreign(h.file, st.scope)
    ensures Goes(p, h, st, trace,
                 Host(Marker(st.scope), Some(ByLease(p)), h.containers - GpuSlot.Own(h, st.scope)),
                 st.(job := Started(j), lease := true, active := Some(j), pending := false))
  {
    var h1 := Host("", Some(ByLease(p)), h.containers - GpuSlot.Own(h, st.scope));
    var st1 := st.(job := Inspect, lease := true, pending := false);
    var first := RecoveryRun(h, st, p);
    var second := AdmissionRun(h1, st1, p, j, Admitted);
    GoesOn(p, h, st, first, h1, st1, second, h1.(file := Marker(st.scope)),
           st1.(job := Started(j), active := Some(j)));
    trace := first + second;
  }

  /** A request that finds another's marker, or one that no recovery may clear, changes nothing. */
  lemma {:induction false} RefusedRequest(h: Host, st: Studio, p: Pid) returns (trace: seq<Action>)
    requires Idle(st) && h.owner == None && h.file != "" && (!st.pending || Foreign(h.file, st.scope))
    ensures Goes(p, h, st, trace, h, st)
    ensures forall j :: !CreateEnabled(Leased(h, p), st.(job := Inspect, lease := true), CreateAdmit(j))
  {
    var h1, st1, st2 := Leased(h, p), st.(job := Holding, lease := true), st.(job := Inspect, lease := true);
    trace := RejectedOutcome(h1, st2, p);
    GoesFirst(p, h1, st1, Create(p, CreateSkip), h1, st2, trace, h, st);
    trace := [Create(p, CreateSkip)] + trace;
    GoesFirst(p, h, st, Create(p, CreateAcquire), h1, st1, trace, h, st);
    trace := [Create(p, CreateAcquire)] + trace;
  }

  // Lock, recovery and checks.
  lemma {:induction false} InspectionRun(h: Host, st: Studio, p: Pid) returns (trace: seq<Action>)
    requires Idle(st) && h == Host("", None, {})
    ensures Goes(p, h, st, trace, Leased(h, p), st.(job := Inspect, lease := true, pending := false))
  {
    MarkerExact("", st.scope);
    if st.pending {
      trace := RecoveryRun(h, st, p);
      assert h.containers - GpuSlot.Own(h, st.scope) == {};
    } else {
      var h1, st1 := Leased(h, p), st.(job := Holding, lease := true);
      var st3 := st1.(job := Inspect);
      GoesFirst(p, h1, st1, Create(p, CreateSkip), h1, st3, [], h1, st3);
      GoesFirst(p, h, st, Create(p, CreateAcquire), h1, st1, [Create(p, CreateSkip)], h1, st3);
      trace := [Create(p, CreateAcquire)] + [Create(p, CreateSkip)];
    }
  }

  // The except branch: the lease is closed, and only a durable marker is erased.
  lemma {:induction false} UndoRun(h: Host, st: Studio, p: Pid) returns (trace: seq<Action>)
    requires st.job.Failing?
    ensures Goes(p, h, st, trace,
                 h.(owner := None, file := if st.job.marked then Cleared(h.file, st.scope) else h.file),
                 st.(job := Out, lease := false, active := None))
  {
    var h1 := h.(owner := None, file := if st.job.marked then Cleared(h.file, st.scope) else h.file);
    var st1 := st.(job := Unleased, lease := false);
    var st2 := st1.(job := Out, active := None);
    GoesFirst(p, h1, st1, Create(p, ClearActive), h1, st2, [], h1, st2);
    GoesFirst(p, h, st, Create(p, CreateUndo), h1, st1, [Create(p, ClearActive)], h1, st2);
    trace := [Create(p, CreateUndo)] + [Create(p, ClearActive)];
  }

  /** Any exception before the job is registered, also in the recovery, gives the slot back as it is. */
  lemma {:induction false} RejectedOutcome(h: Host, st: Studio, p: Pid) returns (trace: seq<Action>)
    requires st.job.Holding? || st.job.Cleaning? || st.job.Inspect?
    ensures Goes(p, h, st, trace, h.(owner := None), st.(job := Out, lease := false, active := None))
  {
    var st1 := st.(job := Failing(false));
    trace := UndoRun(h, st1, p);
    GoesFirst(p, h, st, Create(p, CreateReject), h, st1, trace, h.(owner := None),
              st.(job := Out, lease := false, active := None));
    trace := [Create(p, CreateReject)] + trace;
  }

  function FileAfter(scope: Scope, fortune: Fortune): string {
    match fortune
    case Rejected => ""
    case WriteCut(count) => if count < |Marker(scope)| then Marker(scope)[..count] else Marker(scope)
    case SyncFailed => Marker(scope)
    case StartFailed => ""
    case Admitted => Marker(scope)
  }

  // From the checks to the thread, or to the failure.
  lemma {:induction false} AdmissionRun(h: Host, st: Studio, p: Pid, j: JobId, fortune: Fortune)
    returns (trace: seq<Action>)
    requires st.job == Inspect && h.file == ""
    requires fortune.WriteCut? ==> fortune.count < |Marker(st.scope)|
    ensures
      var h' := h.(file := if fortune.StartFailed? then Marker(st.scope) else FileAfter(st.scope, fortune));
      Goes(p, h, st, trace, h',
           match fortune
           case Rejected => st.(job := Failing(false))
           case Admitted => st.(job := Started(j), active := Some(j))
           case _ => st.(job := Failing(fortune.StartFailed?), active := Some(j)))
  {
    if fortune.Rejected? {
      GoesFirst(p, h, st, Create(p, CreateReject), h, st.(job := Failing(false)), [], h, st.(job := Failing(false)));
      trace := [Create(p, CreateReject)];
    } else {
      var st1 := st.(job := Writing(j), active := Some(j));
      if fortune.WriteCut? {
        var h2, st2 := h.(file := FileAfter(st.scope, fortune)), st1.(job := Failing(false));
        GoesFirst(p, h, st1, Create(p, CreateWrite(fortune.count)), h2, st2, [], h2, st2);
        trace := [Create(p, CreateWrite(fortune.count))];
        GoesFirst(p, h, st, Create(p, CreateAdmit(j)), h, st1, trace, h2, st2);
      } else {
        var st': Studio;
        trace, st' := MarkedRun(h, st1, p, j, fortune);
        GoesFirst(p, h, st, Create(p, CreateAdmit(j)), h, st1, trace, h.(file := Marker(st.scope)), st');
      }
      trace := [Create(p, CreateAdmit(j))] + trace;
    }
  }

  lemma {:induction false} MarkedRun(h: Host, st: Studio, p: Pid, j: JobId, fortune: Fortune)
    returns (trace: seq<Action>, st': Studio)
    requires st.job == Writing(j) && (fortune.SyncFailed? || fortune.StartFailed? || fortune.Admitted?)
    ensures st' == st.(job := if fortune.Admitted? then Started(j) else Failing(fortune.StartFailed?))
    ensures Goes(p, h, st, trace, h.(file := Marker(st.scope)), st')
  {
    var n := |Marker(st.scope)|;
    var h1, st1 := h.(file := Marker(st.scope)), st.(job := Written(j));
    assert Marker(st.scope)[..n] == Marker(st.scope);
    st' := st.(job := if fortune.Admitted? then Started(j) else Failing(fortune.StartFailed?));
    if fortune.SyncFailed? {
      GoesFirst(p, h1, st1, Create(p, CreateSync(false)), h1, st', [], h1, st');
      trace := [Create(p, CreateSync(false))];
    } else {
      var st2 := st1.(job := Marked(j));
      var start := Create(p, CreateStart(fortune.Admitted?));
      GoesFirst(p, h1, st2, start, h1, st', [], h1, st');
      GoesFirst(p, h1, st1, Create(p, CreateSync(true)), h1, st2, [start], h1, st');
      trace := [Create(p, CreateSync(true))] + [start];
    }
    GoesFirst(p, h, st, Create(p, CreateWrite(n)), h1, st1, trace, h1, st');
    trace := [Create(p, CreateWrite(n))] + trace;
  }

  /**
   A request on a free slot either starts its job, with the whole marker written under
   the lease, or leaves the slot unlocked and the manager idle; and what is then in the
   file depends on how far it got.
   */
  lemma {:induction false} RequestOutcome(h: Host, st: Studio, p: Pid, j: JobId, fortune: Fortune)
    returns (trace: seq<Action>)
    requires Idle(st) && h == Host("", None, {})
    requires fortune.WriteCut? ==> fortune.count < |Marker(st.scope)|
    ensures
      Goes(p, h, st, trace,
           Host(FileAfter(st.scope, fortune), if fortune.Admitted? then Some(ByLease(p)) else None, {}),
           if fortune.Admitted? then st.(job := Started(j), lease := true, active := Some(j), pending := false)
           else st.(pending := false))
  {
    var h1, st1 := Leased(h, p), st.(job := Inspect, lease := true, pending := false);
    var first := InspectionRun(h, st, p);
    var second := AdmissionRun(h1, st1, p, j, fortune);
    MarkerExact(Marker(st.scope), st.scope);
    if fortune.Admitted? {
      var h2, st2 := h1.(file := Marker(st.scope)), st1.(job := Started(j), active := Some(j));
      GoesOn(p, h, st, first, h1, st1, second, h2, st2);
      trace := first + second;
    } else {
      var h2 := h1.(file := if fortune.StartFailed? then Marker(st.scope) else FileAfter(st.scope, fortune));
      var st2 := st1.(job := Failing(fortune.StartFailed?), active := if fortune.Rejected? then None else Some(j));
      var third := UndoRun(h2, st2, p);
      var h3, st3 := Host(FileAfter(st.scope, fortune), None, {}), st.(pending := false);
      GoesOn(p, h1, st1, second, h2, st2, third, h3, st3);
      GoesOn(p, h, st, first, h1, st1, second + third, h3, st3);
      trace := first + (second + third);
    }
  }

  // --- a job, and its end -------------------------------------------------------

  const FREE: Host := Host("", None, {})

  // What the job thread finds: its lease, its marker, and at most its container.
  function Busy(p: Pid, st: Studio, containers: set<Container>): Host {
    Host(Marker(st.scope), Some(ByLease(p)), containers)
  }

  lemma {:induction false} FinishRun(h: Host, st: Studio, p: Pid) returns (trace: seq<Action>)
    requires st.job.Finishing? && !st.blocked
    ensures Goes(p, h, st, trace, h.(owner := None, file := Cleared(h.file, st.scope)),
                 st.(job := Out, lease := false, active := None))
  {
    var h1, st1 := h.(owner := None, file := Cleared(h.file, st.scope)), st.(job := Unleased, lease := false);
    var st2 := st1.(job := Out, active := None);
    GoesFirst(p, h1, st1, Create(p, ClearActive), h1, st2, [], h1, st2);
    GoesFirst(p, h, st, Run(p, RunRelease), h1, st1, [Create(p, ClearActive)], h1, st2);
    trace := [Run(p, RunRelease)] + [Create(p, ClearActive)];
  }

  // Each listed container is removed, and then the absence of all is confirmed.
  lemma {:induction false} SweepsRun(h: Host, st: Studio, p: Pid) returns (trace: seq<Action>)
    requires st.job.Confirming? && !st.blocked
    ensures Goes(p, h, st, trace,
                 Host(Cleared(h.file, st.scope), None, h.containers - st.job.todo),
                 st.(job := Out, lease := false, active := None))
    decreases |st.job.todo|
  {
    if st.job.todo == {} {
      var st1 := st.(job := Finishing(st.job.job, true));
      trace := FinishRun(h, st1, p);
      assert h.containers - {} == h.containers;
      GoesFirst(p, h, st, Run(p, RunConfirmed), h, st1, trace,
                Host(Cleared(h.file, st.scope), None, h.containers), st.(job := Out, lease := false, active := None));
      trace := [Run(p, RunConfirmed)] + trace;
    } else {
      var c :| c in st.job.todo;
      var h1 := h.(containers := h.containers - {c});
      var st1 := st.(job := Confirming(st.job.job, st.job.todo - {c}));
      trace := SweepsRun(h1, st1, p);
      assert h1.containers - st1.job.todo == h.containers - st.job.todo;
      GoesFirst(p, h, st, Run(p, RunSweep(c)), h1, st1, trace,
                Host(Cleared(h.file, st.scope), None, h.containers - st.job.todo),
                st.(job := Out, lease := false, active := None));
      trace := [Run(p, RunSweep(c))] + trace;
    }
  }

  /** A returned job whose containers are all removed gives the slot back. */
  lemma {:induction false} ConfirmedRun(h: Host, st: Studio, p: Pid) returns (trace: seq<Action>)
    requires st.job.Returned? && !st.blocked
    ensures Goes(p, h, st, trace, Host(Cleared(h.file, st.scope), None, h.containers - GpuSlot.Own(h, st.scope)),
                 st.(job := Out, lease := false, active := None))
  {
    var st1 := st.(job := Confirming(st.job.job, GpuSlot.Own(h, st.scope)));
    trace := SweepsRun(h, st1, p);
    GoesFirst(p, h, st, Run(p, RunList), h, st1, trace,
              Host(Cleared(h.file, st.scope), None, h.containers - GpuSlot.Own(h, st.scope)),
              st.(job := Out, lease := false, active := None));
    trace := [Run(p, RunList)] + trace;
  }

  /** One whose cleanup stays uncertain blocks the manager, which keeps lease and marker. */
  lemma {:induction false} UncertainRun(h: Host, st: Studio, p: Pid)
    requires st.job.Returned?
    ensures Goes(p, h, st, [Run(p, RunUncertain)] + [Run(p, RunRelease)], h,
                 st.(job := Out, active := None, blocked := true))
  {
    var st1 := st.(job := Finishing(st.job.job, false), blocked := true);
    var st2 := st1.(job := Out, active := None);
    GoesFirst(p, h, st1, Run(p, RunRelease), h, st2, [], h, st2);
    GoesFirst(p, h, st, Run(p, RunUncertain), h, st1, [Run(p, RunRelease)], h, st2);
  }

  /** How a job goes: refused before launch, or launched, with its container removed at once, late, or not. */
  datatype Course = Refused | Removed | RemovedLate | Uncertain

  lemma {:induction false} LaunchRun(st: Studio, p: Pid, course: Course) returns (trace: seq<Action>)
    requires st.job.Started? && !course.Refused?
    ensures
      var c := Container(st.scope, st.job.job);
      Goes(p, Busy(p, st, {}), st, trace, Busy(p, st, if course.Removed? then {} else {c}),
           st.(job := Returned(st.job.job, !course.Removed?)))
    ensures trace != [] && trace[0] == Run(p, RunLaunch(true))
    ensures RunApply(Busy(p, st, {}), st, RunLaunch(true)) ==
              (Busy(p, st, {Container(st.scope, st.job.job)}), st.(job := Launched(st.job.job)))
  {
    var c := Container(st.scope, st.job.job);
    var h1, st1 := Busy(p, st, {c}), st.(job := Launched(st.job.job));
    var h2, st2 := Busy(p, st, if course.Removed? then {} else {c}), st.(job := Returned(st.job.job, !course.Removed?));
    var remove := Run(p, RunRemove(course.Removed?, course.Removed?));
    assert {} + {c} == {c} && {c} - {c} == {};
    GoesFirst(p, h1, st1, remove, h2, st2, [], h2, st2);
    GoesFirst(p, Busy(p, st, {}), st, Run(p, RunLaunch(true)), h1, st1, [remove], h2, st2);
    trace := [Run(p, RunLaunch(true))] + [remove];
  }

  /**
   However its course, a job ends with the manager idle again: with the slot free unless
   the absence of its container could not be confirmed, and then blocked, with the lease,
   the marker and the container.
   */
  lemma {:induction false} JobOutcome(st: Studio, p: Pid, course: Course) returns (trace: seq<Action>)
    requires st.job.Started? && !st.blocked
    ensures
      if course.Uncertain? then
        Goes(p, Busy(p, st, {}), st, trace, Busy(p, st, {Container(st.scope, st.job.job)}),
             st.(job := Out, active := None, blocked := true))
      else Goes(p, Busy(p, st, {}), st, trace, FREE, st.(job := Out, active := None, lease := false))
    ensures !course.Refused? ==> trace != [] && trace[0] == Run(p, RunLaunch(true))
  {
    MarkerExact(Marker(st.scope), st.scope);
    var c := Container(st.scope, st.job.job);
    var h0, h1, st1 := Busy(p, st, {}), Busy(p, st, {}), st.(job := Returned(st.job.job, false));
    if course.Refused? {
      trace := [Run(p, RunRefused)];
      GoesFirst(p, h0, st, Run(p, RunRefused), h1, st1, [], h1, st1);
    } else {
      h1 := Busy(p, st, if course.Removed? then {} else {c});
      st1 := st.(job := Returned(st.job.job, !course.Removed?));
      trace := LaunchRun(st, p, course);
    }
    if course.Uncertain? {
      UncertainRun(h1, st1, p);
      var st2 := st.(job := Out, active := None, blocked := true);
      GoesOn(p, h0, st, trace, h1, st1, [Run(p, RunUncertain)] + [Run(p, RunRelease)], h1, st2);
      trace := trace + ([Run(p, RunUncertain)] + [Run(p, RunRelease)]);
    } else {
      var rest := ConfirmedRun(h1, st1, p);
      assert h1.containers - GpuSlot.Own(h1, st.scope) == {};
      GoesOn(p, h0, st, trace, h1, st1, rest, FREE, st.(job := Out, active := None, lease := false));
      trace := trace + rest;
    }
  }

  /** A request and its job: afterwards the next one can be made, and the slot is as free as before. */
  lemma {:induction false} JobCycle(st: Studio, p: Pid, j: JobId, course: Course) returns (trace: seq<Action>)
    requires Idle(st) && !course.Uncertain?
    ensures Goes(p, FREE, st, trace, FREE, st.(pending := false))
    ensures !course.Refused? ==> Run(p, RunLaunch(true)) in trace
  {
    var st1 := st.(job := Started(j), lease := true, active := Some(j), pending := false);
    var first := RequestOutcome(FREE, st, p, j, Admitted);
    var second := JobOutcome(st1, p, course);
    GoesOn(p, FREE, st, first, Busy(p, st, {}), st1, second, FREE, st.(pending := false));
    trace := first + second;
    if !course.Refused? { assert trace[|first|] == second[0]; }
  }

  // --- shutdown, and the readiness probe -------------------------------------------

  lemma {:induction false} CloseSweeps(h: Host, st: Studio, p: Pid) returns (trace: seq<Action>)
    requires st.job.Closing?
    ensures Goes(p, h, st, trace, Host(Cleared(h.file, st.scope), None, h.containers - st.job.todo),
                 st.(job := Out, lease := false))
    decreases |st.job.todo|
  {
    var h', st' := Host(Cleared(h.file, st.scope), None, h.containers - st.job.todo), st.(job := Out, lease := false);
    if st.job.todo == {} {
      assert h.containers - {} == h.containers;
      GoesFirst(p, h, st, Close(p, CloseRelease), h', st', [], h', st');
      trace := [Close(p, CloseRelease)];
    } else {
      var c :| c in st.job.todo;
      var h1, st1 := h.(containers := h.containers - {c}), st.(job := Closing(st.job.todo - {c}));
      trace := CloseSweeps(h1, st1, p);
      assert h1.containers - st1.job.todo == h.containers - st.job.todo;
      GoesFirst(p, h, st, Close(p, CloseRemove(c)), h1, st1, trace, h', st');
      trace := [Close(p, CloseRemove(c))] + trace;
    }
  }

  /** Shutdown of a blocked manager removes its containers and then gives the slot back. */
  lemma {:induction false} CloseOutcome(h: Host, st: Studio, p: Pid) returns (trace: seq<Action>)
    requires st.job.Out? && st.lease && !st.closing
    ensures Goes(p, h, st, trace, Host(Cleared(h.file, st.scope), None, h.containers - GpuSlot.Own(h, st.scope)),
                 st.(closing := true, lease := false))
  {
    var st1 := st.(closing := true);
    var st2 := st1.(job := Closing(GpuSlot.Own(h, st.scope)));
    var h', st' := Host(Cleared(h.file, st.scope), None, h.containers - GpuSlot.Own(h, st.scope)), st1.(lease := false);
    trace := CloseSweeps(h, st2, p);
    GoesFirst(p, h, st1, Close(p, CloseList), h, st2, trace, h', st');
    trace := [Close(p, CloseList)] + trace;
    GoesFirst(p, h, st, Close(p, BeginClose), h, st1, trace, h', st');
    trace := [Close(p, BeginClose)] + trace;
  }

  lemma {:induction false} ProbeSweeps(h: Host, st: Studio, p: Pid) returns (trace: seq<Action>)
    requires st.probe.ProbeCleaning?
    ensures Goes(p, h, st, trace, Host(Cleared(h.file, st.scope), None, h.containers - st.probe.todo),
                 st.(probe := ProbeOut, pending := false))
    decreases |st.probe.todo|
  {
    var h' := Host(Cleared(h.file, st.scope), None, h.containers - st.probe.todo);
    var st' := st.(probe := ProbeOut, pending := false);
    if st.probe.todo == {} {
      assert h.containers - {} == h.containers;
      var h1, st1 := h.(file := Cleared(h.file, st.scope)), st.(probe := ProbeDone, pending := false);
      GoesFirst(p, h1, st1, Probe(p, ProbeRelease), h', st', [], h', st');
      GoesFirst(p, h, st, Probe(p, ProbeClear), h1, st1, [Probe(p, ProbeRelease)], h', st');
      trace := [Probe(p, ProbeClear)] + [Probe(p, ProbeRelease)];
    } else {
      var c :| c in st.probe.todo;
      var h1, st1 := h.(containers := h.containers - {c}), st.(probe := ProbeCleaning(st.probe.todo - {c}));
      trace := ProbeSweeps(h1, st1, p);
      assert h1.containers - st1.probe.todo == h.containers - st.probe.todo;
      GoesFirst(p, h, st, Probe(p, ProbeRemove(c)), h1, st1, trace, h', st');
      trace := [Probe(p, ProbeRemove(c))] + trace;
    }
  }

  /**
   A probe of an unlocked file recovers what its own instance left behind, if that is
   pending and the marker is not another's; else, or if Docker fails, it changes nothing.
   */
  lemma {:induction false} ProbeOutcome(h: Host, st: Studio, p: Pid, docker: bool) returns (trace: seq<Action>)
    requires st.probe == ProbeOut && h.owner == None && !st.closing
    ensures
      if docker && st.pending && !Foreign(h.file, st.scope) then
        Goes(p, h, st, trace, Host(Cleared(h.file, st.scope), None, h.containers - GpuSlot.Own(h, st.scope)),
             st.(pending := false))
      else Goes(p, h, st, trace, h, st)
  {
    var h1, st1 := h.(owner := Some(ByProbe(p))), st.(probe := ProbeHolding);
    if docker && st.pending && !Foreign(h.file, st.scope) {
      var st2 := st1.(probe := ProbeCleaning(GpuSlot.Own(h, st.scope)));
      var h' := Host(Cleared(h.file, st.scope), None, h.containers - GpuSlot.Own(h, st.scope));
      trace := ProbeSweeps(h1, st2, p);
      assert GpuSlot.Own(h1, st.scope) == GpuSlot.Own(h, st.scope);
      GoesFirst(p, h1, st1, Probe(p, ProbeList), h1, st2, trace, h', st.(pending := false));
      trace := [Probe(p, ProbeList)] + trace;
      GoesFirst(p, h, st, Probe(p, ProbeAcquire), h1, st1, trace, h', st.(pending := false));
    } else {
      var st2 := st1.(probe := ProbeDone);
      GoesFirst(p, h1, st2, Probe(p, ProbeRelease), h, st, [], h, st);
      GoesFirst(p, h1, st1, Probe(p, ProbeSkip), h1, st2, [Probe(p, ProbeRelease)], h, st);
      trace := [Probe(p, ProbeSkip)] + [Probe(p, ProbeRelease)];
      GoesFirst(p, h, st, Probe(p, ProbeAcquire), h1, st1, trace, h, st);
    }
    trace := [Probe(p, ProbeAcquire)] + trace;
  }

  /** A probe whose recovery fails on the way gives the lock back, and the recovery stays pending. */
  lemma {:induction false} AbandonedOutcome(h: Host, st: Studio, p: Pid) returns (trace: seq<Action>)
    requires st.probe.ProbeCleaning? || st.probe == ProbeHolding
    ensures Goes(p, h, st, trace, h.(owner := None), st.(probe := ProbeOut))
  {
    var give := if st.probe.ProbeCleaning? then ProbeAbandon else ProbeSkip;
    var st1 := st.(probe := ProbeDone);
    GoesFirst(p, h, st1, Probe(p, ProbeRelease), h.(owner := None), st.(probe := ProbeOut), [],
              h.(owner := None), st.(probe := ProbeOut));
    GoesFirst(p, h, st, Probe(p, give), h, st1, [Probe(p, ProbeRelease)], h.(owner := None), st.(probe := ProbeOut));
    trace := [Probe(p, give)] + [Probe(p, ProbeRelease)];
  }

  // --- from wherever a Studio is ---------------------------------------------------------

  /** The marker is durable and the absence of the container has not been given up. */
  predicate Orderly(job: JobStage) {
    || job.Marked? || job == Failing(true) || job.Started? || job.Launched? || job.Returned? || job.Confirming?
    || (job.Finishing? && job.confirmed)
  }

  // The next step of a manager whose calls succeed from now on.
  lemma {:induction false} ReturnRun(h: Host, st: Studio, p: Pid) returns (trace: seq<Action>, h': Host, st': Studio)
    requires st.job.Marked? || st.job.Started? || st.job.Launched?
    ensures Goes(p, h, st, trace, h', st') && st'.job.Returned? && st' == st.(job := st'.job)
    ensures h' == h.(containers := h'.containers) && h'.containers <= h.containers
    decreases if st.job.Marked? then 1 else 0
  {
    if st.job.Marked? {
      var st1 := st.(job := Started(st.job.job));
      trace, h', st' := ReturnRun(h, st1, p);
      GoesFirst(p, h, st, Create(p, CreateStart(true)), h, st1, trace, h', st');
      trace := [Create(p, CreateStart(true))] + trace;
    } else {
      st' := st.(job := Returned(st.job.job, false));
      if st.job.Started? {
        h', trace := h, [Run(p, RunRefused)];
      } else {
        h' := h.(containers := h.containers - {Container(st.scope, st.job.job)});
        trace := [Run(p, RunRemove(true, true))];
      }
      GoesFirst(p, h, st, trace[0], h', st', [], h', st');
      assert trace == [trace[0]] + [];
    }
  }

  /**
   From wherever an orderly job is, its Studio by its own steps gets to be idle with the
   slot free: no lease, no lock, no marker, no container, and not blocked.
   */
  lemma {:induction false} OrderlyEnds(h: Host, st: Studio, p: Pid) returns (trace: seq<Action>)
    requires ContainersMarked(h) && StudioOk(h, p, st) && Orderly(st.job)
    ensures Goes(p, h, st, trace, FREE, st.(job := Out, lease := false, active := None))
  {
    var st' := st.(job := Out, lease := false, active := None);
    assert h.file == Marker(st.scope) && !st.blocked;
    Facts(h, p, st);
    if st.job.Failing? {
      trace := UndoRun(h, st, p);
      assert h.(owner := None, file := "") == FREE;
    } else if st.job.Finishing? {
      trace := FinishRun(h, st, p);
      assert h.(owner := None, file := "") == FREE;
    } else if st.job.Confirming? {
      trace := SweepsRun(h, st, p);
      assert h.containers - st.job.todo == {};
    } else if st.job.Returned? {
      trace := ReturnedEnds(h, st, p);
    } else {
      var first, h1, st1 := ReturnRun(h, st, p);
      var second := ReturnedEnds(h1, st1, p);
      assert st1.(job := Out, lease := false, active := None) == st';
      GoesOn(p, h, st, first, h1, st1, second, FREE, st');
      trace := first + second;
    }
  }

  lemma {:induction false} ReturnedEnds(h: Host, st: Studio, p: Pid) returns (trace: seq<Action>)
    requires ContainersMarked(h) && h.file == Marker(st.scope) && st.job.Returned? && !st.blocked
    ensures Goes(p, h, st, trace, FREE, st.(job := Out, lease := false, active := None))
  {
    MarkerExact(h.file, st.scope);
    OnlyOwn(h, st.scope);
    trace := ConfirmedRun(h, st, p);
    assert h.containers - GpuSlot.Own(h, st.scope) == {};
  }

  /** In particular from every reachable state of the whole system, whatever the others are doing. */
  lemma {:induction false} JobsEnd(s: Sys, p: Pid) returns (trace: seq<Action>, end: Sys)
    requires Reachable(s) && p in s.studios && Orderly(s.studios[p].job)
    ensures Leads(s, trace, end) && Own(trace, p)
    ensures end == With(s, p, FREE, s.studios[p].(job := Out, lease := false, active := None))
  {
    ReachableInv(s);
    assert StudioOk(s.host, p, s.studios[p]);
    trace := OrderlyEnds(s.host, s.studios[p], p);
    end := With(s, p, FREE, s.studios[p].(job := Out, lease := false, active := None));
    GoesLeads(s, p, trace, FREE, end.studios[p]);
  }

  /** A manager becomes blocked exactly by giving up on its cleanup, and stays so. */
  lemma {:induction false} BlockedCause(s: Sys, a: Action, p: Pid)
    requires Inv(s) && Enabled(s, a) && p in s.studios && p in Apply(s, a).studios
    ensures Apply(s, a).studios[p].blocked <==> s.studios[p].blocked || a == Run(p, RunUncertain)
  {
    if StudioAction(a) && a.p == p { BlockedStep(s.host, s.studios[p], a); }
  }

  lemma {:induction false} BlockedStep(h: Host, st: Studio, a: Action)
    requires StudioAction(a) && StudioEnabled(h, st, a)
    ensures StudioApply(h, st, a).1.blocked <==> st.blocked || a == Run(a.p, RunUncertain)
  {
  }

  // --- the media worker -------------------------------------------------------------------

  lemma {:induction false} MediaNext(s: Sys, p: Pid, m: MediaMove)
    requires p in s.media && MediaEnabled(s.host, s.media[p], m) && !m.MediaAbandon?
    ensures
      var (h, stage) := MediaApply(s.host, p, s.media[p], m);
      Next(s, Media(p, m), s.(host := h, media := s.media[p := stage],
                              renders := if stage.MediaRendering? then s.renders + {p} else s.renders - {p}))
  {
  }

  /** A media worker on a free slot renders and gives it back; on a marked file it does not render. */
  lemma {:induction false} MediaOutcome(s: Sys, p: Pid)
    requires Inv(s) && p in s.media && s.media[p] == MediaOut && s.host.owner == None
    ensures s.host.file != "" ==> Leads(s, [Media(p, MediaLock)] + [Media(p, MediaRelease)], s)
    ensures s.host.file == "" ==>
              Leads(s, [Media(p, MediaLock)] + ([Media(p, MediaCheck)] + ([Media(p, MediaRender)]
                       + ([Media(p, MediaRenderEnd)] + [Media(p, MediaRelease)]))), s)
  {
    var s1 := s.(host := s.host.(owner := Some(ByMedia(p))), media := s.media[p := MediaLocked]);
    assert p !in s.renders;
    MediaNext(s, p, MediaLock);
    assert s.renders - {p} == s.renders;
    if s.host.file != "" {
      MediaBack(s1, p, s);
      Prepend(s, Media(p, MediaLock), s1, [Media(p, MediaRelease)], s);
    } else {
      var s2 := s1.(media := s.media[p := MediaHeld]);
      var s3 := s1.(media := s.media[p := MediaRendering], renders := s.renders + {p});
      MediaNext(s1, p, MediaCheck);
      MediaNext(s2, p, MediaRender);
      MediaNext(s3, p, MediaRenderEnd);
      assert s.renders + {p} - {p} == s.renders;
      assert s1.media[p := MediaHeld] == s.media[p := MediaHeld];
      assert s2.media[p := MediaRendering] == s.media[p := MediaRendering];
      assert s3.media[p := MediaHeld] == s.media[p := MediaHeld];
      MediaBack(s2, p, s);
      Prepend(s3, Media(p, MediaRenderEnd), s2, [Media(p, MediaRelease)], s);
      var t3 := [Media(p, MediaRenderEnd)] + [Media(p, MediaRelease)];
      Prepend(s2, Media(p, MediaRender), s3, t3, s);
      Prepend(s1, Media(p, MediaCheck), s2, [Media(p, MediaRender)] + t3, s);
      Prepend(s, Media(p, MediaLock), s1, [Media(p, MediaCheck)] + ([Media(p, MediaRender)] + t3), s);
    }
  }

  lemma {:induction false} MediaBack(s: Sys, p: Pid, s': Sys)
    requires p in s.media && (s.media[p] == MediaLocked || s.media[p] == MediaHeld) && p !in s.renders
    requires s' == s.(host := s.host.(owner := None), media := s.media[p := MediaOut])
    ensures Leads(s, [Media(p, MediaRelease)], s')
  {
    MediaNext(s, p, MediaRelease);
    assert s.renders - {p} == s.renders;
    Prepend(s, Media(p, MediaRelease), s', [], s');
  }

  // --- recovery comes first ------------------------------------------------------------------

  // With recovery pending, a request gets past it only on another instance's marker.
  ghost predicate Recovered(h: Host, st: Studio) {
    && (st.active.Some? ==> !st.pending)
    && (st.job.Inspect? && st.pending ==> Foreign(h.file, st.scope))
  }

  ghost predicate AllRecovered(s: Sys) { forall p | p in s.studios :: Recovered(s.host, s.studios[p]) }

  lemma {:induction false} RecoveredLocal(h: Host, st: Studio, a: Action)
    requires StudioAction(a) && StudioOk(h, a.p, st) && StudioEnabled(h, st, a) && Recovered(h, st)
    ensures Recovered(StudioApply(h, st, a).0, StudioApply(h, st, a).1)
  {
    match a {
      case Probe(p, m) => RecoveredProbe(h, st, p, m);
      case Create(p, m) => RecoveredCreate(h, st, p, m);
      case Run(p, m) => RecoveredRun(h, st, m);
      case Close(p, m) =>
    }
  }

  lemma {:induction false} RecoveredProbe(h: Host, st: Studio, p: Pid, m: ProbeMove)
    requires StudioOk(h, p, st) && ProbeEnabled(h, st, m) && Recovered(h, st)
    ensures Recovered(ProbeApply(h, st, p, m).0, ProbeApply(h, st, p, m).1)
  {
  }

  lemma {:induction false} RecoveredCreate(h: Host, st: Studio, p: Pid, m: CreateMove)
    requires StudioOk(h, p, st) && CreateEnabled(h, st, m) && Recovered(h, st)
    ensures Recovered(CreateApply(h, st, p, m).0, CreateApply(h, st, p, m).1)
  {
  }

  lemma {:induction false} RecoveredRun(h: Host, st: Studio, m: RunMove)
    requires RunEnabled(h, st, m) && Recovered(h, st)
    ensures Recovered(RunApply(h, st, m).0, RunApply(h, st, m).1)
  {
  }

  lemma {:induction false} RecoveredStep(s: Sys, a: Action)
    requires Inv(s) && AllRecovered(s) && Enabled(s, a)
    ensures AllRecovered(Apply(s, a))
  {
    var z := Apply(s, a);
    forall p | p in z.studios ensures Recovered(z.host, z.studios[p]) {
      if StudioAction(a) && a.p == p {
        RecoveredLocal(s.host, s.studios[p], a);
      } else if p in s.studios {
        assert Recovered(s.host, s.studios[p]) && StudioOk(s.host, p, s.studios[p]);
        if s.studios[p].job.Inspect? { LeaseKeepsFile(s, a, p); }
      }
    }
  }

  // Nobody writes the file while another process has the lease.
  lemma {:induction false} LeaseKeepsFile(s: Sys, a: Action, p: Pid)
    requires Inv(s) && Enabled(s, a) && p in s.studios && s.studios[p].lease
    requires !(StudioAction(a) && a.p == p)
    ensures Apply(s, a).host.file == s.host.file
  {
    assert StudioOk(s.host, p, s.studios[p]);
    if Apply(s, a).host.file != s.host.file {
      FileChanges(s, a);
      assert StudioOk(s.host, a.p, s.studios[a.p]);
      WritersHold(s.host, s.studios[a.p], a);
    }
  }

  lemma {:induction false} WritersHold(h: Host, st: Studio, a: Action)
    requires StudioAction(a) && StudioOk(h, a.p, st) && StudioEnabled(h, st, a)
    ensures StudioApply(h, st, a).0.file != h.file ==> h.owner == Some(ByLease(a.p)) || h.owner == Some(ByProbe(a.p))
  {
  }

  /** No job is ever admitted while the recovery of its instance is pending. */
  lemma {:induction false} RecoveryFirst(trace: seq<Action>, p: Pid)
    requires Runs(Init, trace) && p in After(Init, trace).studios && After(Init, trace).studios[p].active.Some?
    ensures !After(Init, trace).studios[p].pending
  {
    RecoveredAfter(Init, trace);
  }

  lemma {:induction false} RecoveredAfter(s: Sys, trace: seq<Action>)
    requires Inv(s) && AllRecovered(s) && Runs(s, trace)
    ensures AllRecovered(After(s, trace))
    decreases |trace|
  {
    if trace != [] {
      RecoveredStep(s, trace[0]);
      InvPreserved(s, trace[0]);
      RecoveredAfter(Apply(s, trace[0]), trace[1..]);
    }
  }

  // --- a marker that only a restart clears ------------------------------------------------

  // The manager has no recovery pending, and is not in a job.
  predicate Bystanding(st: Studio) {
    && !st.pending && !st.blocked && !st.probe.ProbeCleaning?
    && (   ((st.job.Out? || st.job.Unleased?) && !st.lease)
        || st.job.Holding? || st.job.Inspect? || st.job == Failing(false))
  }

  /** The file holds this instance's marker, and no manager of the instance will look after it. */
  ghost predicate Stuck(s: Sys, scope: Scope) {
    s.host.file == Marker(scope) && forall p | p in s.studios && s.studios[p].scope == scope :: Bystanding(s.studios[p])
  }

  lemma {:induction false} BystandingStep(h: Host, st: Studio, a: Action)
    requires StudioAction(a) && StudioEnabled(h, st, a) && Bystanding(st) && h.file != ""
    ensures StudioApply(h, st, a).0.file == h.file && Bystanding(StudioApply(h, st, a).1)
  {
  }

  lemma {:induction false} SameScope(h: Host, st: Studio, a: Action)
    requires StudioAction(a) && StudioEnabled(h, st, a)
    ensures StudioApply(h, st, a).1.scope == st.scope
  {
  }

  lemma {:induction false} StuckStep(s: Sys, a: Action, scope: Scope)
    requires Inv(s) && Stuck(s, scope) && Enabled(s, a)
    requires !(a.StartStudio? && a.scope == scope)
    ensures Stuck(Apply(s, a), scope)
  {
    if StudioAction(a) {
      SameScope(s.host, s.studios[a.p], a);
      if s.studios[a.p].scope == scope { BystandingStep(s.host, s.studios[a.p], a); }
    }
    if Apply(s, a).host.file != s.host.file {
      FileChanges(s, a);
      MarkerInjective(s.studios[a.p].scope, scope);
    }
  }

  /** A marker that was written but not synced stays until another process of its instance is started. */
  lemma {:induction false} StuckUntilRestart(s: Sys, scope: Scope, trace: seq<Action>)
    requires Inv(s) && Stuck(s, scope) && Runs(s, trace)
    requires forall i | 0 <= i < |trace| :: !(trace[i].StartStudio? && trace[i].scope == scope)
    ensures After(s, trace).host.file == Marker(scope) && After(s, trace).renders == {}
    decreases |trace|
  {
    if trace == [] {
      OneHolder(s);
    } else {
      assert !(trace[0].StartStudio? && trace[0].scope == scope);
      StuckStep(s, trace[0], scope);
      InvPreserved(s, trace[0]);
      forall i | 0 <= i < |trace| - 1 ensures !(trace[1..][i].StartStudio? && trace[1..][i].scope == scope) {
        assert !(trace[i + 1].StartStudio? && trace[i + 1].scope == scope);
      }
      StuckUntilRestart(Apply(s, trace[0]), scope, trace[1..]);
    }
  }

  /** One request whose marker cannot be synced gets there from the start. */
  lemma {:induction false} SyncFailureSticks(p: Pid, scope: Scope, j: JobId) returns (trace: seq<Action>, end: Sys)
    ensures Runs(Init, [StartStudio(p, scope)]) && Leads(After(Init, [StartStudio(p, scope)]), trace, end)
    ensures Inv(end) && Stuck(end, scope)
  {
    var s := Apply(Init, StartStudio(p, scope));
    OneStep(Init, StartStudio(p, scope));
    InvAfter(Init, [StartStudio(p, scope)]);
    trace := RequestOutcome(FREE, s.studios[p], p, j, SyncFailed);
    end := With(s, p, Host(Marker(scope), None, {}), s.studios[p].(pending := false));
    GoesLeads(s, p, trace, end.host, end.studios[p]);
    InvAfter(s, trace);
  }

  // --- from the start -------------------------------------------------------------------------

  // On a free slot an idle Studio goes through a whole job.
  lemma {:induction false} CycleLeads(s: Sys, p: Pid, j: JobId, course: Course) returns (trace: seq<Action>, end: Sys)
    requires p in s.studios && Idle(s.studios[p]) && s.host == FREE && (course.Removed? || course.RemovedLate?)
    ensures Leads(s, trace, end) && Own(trace, p) && Run(p, RunLaunch(true)) in trace
    ensures end == With(s, p, FREE, s.studios[p].(pending := false))
  {
    trace := JobCycle(s.studios[p], p, j, course);
    end := With(s, p, FREE, s.studios[p].(pending := false));
    GoesLeads(s, p, trace, FREE, s.studios[p].(pending := false));
  }

  /** Two jobs and a media render follow each other, and no process crashes. */
  lemma {:induction false} Alternation(p: Pid, q: Pid, scope: Scope, i: JobId, j: JobId)
    returns (first: seq<Action>, second: seq<Action>, mid: Sys, end: Sys)
    requires p != q
    ensures
      var start := [StartStudio(p, scope), StartMedia(q)];
      && Runs(Init, start) && Leads(After(Init, start), first, mid) && Own(first, p) && Run(p, RunLaunch(true)) in first
      && Leads(mid, [Media(q, MediaLock)] + ([Media(q, MediaCheck)] + ([Media(q, MediaRender)]
                    + ([Media(q, MediaRenderEnd)] + [Media(q, MediaRelease)]))), mid)
      && Leads(mid, second, end) && Own(second, p) && Run(p, RunLaunch(true)) in second
      && end == mid && end.host == FREE
  {
    var s1 := Apply(Init, StartStudio(p, scope));
    var s2 := Apply(s1, StartMedia(q));
    Prepend(s1, StartMedia(q), s2, [], s2);
    Prepend(Init, StartStudio(p, scope), s1, [StartMedia(q)], s2);
    assert [StartStudio(p, scope)] + [StartMedia(q)] == [StartStudio(p, scope), StartMedia(q)];
    first, mid := CycleLeads(s2, p, i, Removed);
    InvAfter(Init, [StartStudio(p, scope), StartMedia(q)]);
    InvAfter(s2, first);
    MediaOutcome(mid, q);
    second, end := CycleLeads(mid, p, j, RemovedLate);
    Again(s2, p, FREE, mid.studios[p], FREE, mid.studios[p]);
  }
}
