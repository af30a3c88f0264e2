/** The results about the shared GPU slot, for every run from an empty lock file. */
module GpuTheorems {
  import opened Numbers
  import opened Results
  import opened GpuSlot
  import opened GpuSafety

  // --- safety over whole runs ---------------------------------------------

  /** No worker in this run lets go of the slot while its renderer is alive. */
  ghost predicate Tended(trace: seq<Action>) {
    forall i | 0 <= i < |trace| :: !Orphaning(trace[i])
  }

  /** Nonempty, and no instance's whole marker: no instance will ever erase it. */
  ghost predicate Poisoned(file: string) {
    file != "" && forall scope :: file != Marker(scope)
  }

  lemma {:induction false} Single<T>(s: set<T>)
    requires forall x, y | x in s && y in s :: x == y
    ensures |s| <= 1
  {
    if s != {} {
      var x :| x in s;
      assert s == {x};
    }
  }

  lemma {:induction false} OneHolder(s: Sys)
    requires Inv(s)
    ensures |s.host.containers| + |s.renders| <= 1
    ensures s.host.file != "" ==> s.renders == {}
    ensures s.host.containers != {} ==> s.host.file != "" && !Poisoned(s.host.file)
    ensures s.renders != {} ==> s.host.owner != None
  {
    forall p | p in s.renders ensures s.host.owner == Some(ByMedia(p)) && s.host.file == "" {
      assert MediaOk(s.host, p, s.media[p]);
    }
    if s.host.containers != {} {
      var c :| c in s.host.containers;
      assert s.host.file == Marker(c.scope);
    }
    Single(s.host.containers);
    Single(s.renders);
  }

  lemma {:induction false} OrphansAfter(s: Sys, trace: seq<Action>)
    requires Runs(s, trace) && Tended(trace)
    ensures After(s, trace).orphans <= s.orphans
    decreases |trace|
  {
    if trace != [] {
      assert !Orphaning(trace[0]);
      assert Apply(s, trace[0]).orphans <= s.orphans;
      forall i | 0 <= i < |trace| - 1 ensures !Orphaning(trace[1..][i]) { assert !Orphaning(trace[i + 1]); }
      OrphansAfter(Apply(s, trace[0]), trace[1..]);
    }
  }

  /**
   However Studios, media workers, crashes and Docker failures interleave, at most
   one renderer of any kind has the slot, and the lock file says which.  Nothing else
   is alive either, unless a media worker let go of the slot under its renderer.
   */
  lemma {:induction false} MutualExclusion(trace: seq<Action>)
    requires Runs(Init, trace)
    ensures var s := After(Init, trace);
      && |s.host.containers| + |s.renders| <= 1 && Alive(s) <= 1 + s.orphans
      && (Tended(trace) ==> Alive(s) <= 1)
      && (forall c | c in s.host.containers :: s.host.file == Marker(c.scope))
      && (forall p | p in s.media && (s.media[p].MediaHeld? || s.media[p].MediaRendering?) ::
            s.host.file == "" && s.host.containers == {} && s.host.owner == Some(ByMedia(p)))
  {
    InvAfter(Init, trace);
    var s := After(Init, trace);
    OneHolder(s);
    if Tended(trace) { OrphansAfter(Init, trace); }
    forall p | p in s.media && (s.media[p].MediaHeld? || s.media[p].MediaRendering?)
      ensures s.host.file == "" && s.host.containers == {} && s.host.owner == Some(ByMedia(p))
    {
      assert MediaOk(s.host, p, s.media[p]);
    }
  }

  /**
   Whenever nobody is inside a section guarded by the manager's lock, the lease is
   held exactly when a job is active or the manager is blocked; only the last step of
   shutdown gives up the lease of a blocked manager.
   */
  lemma {:induction false} LeaseDiscipline(s: Sys, p: Pid)
    requires Reachable(s) && p in s.studios && ManagerFree(s.studios[p])
    ensures var st := s.studios[p];
      && (st.lease ==> st.active.Some? || st.blocked)
      && (st.active.Some? ==> st.lease)
      && (st.blocked && !st.closing ==> st.lease)
      && (st.lease <==> s.host.owner == Some(ByLease(p)))
      && (st.lease ==> s.host.file == Marker(st.scope))
      && !(st.active.Some? && st.blocked)
  {
    ReachableInv(s);
    assert StudioOk(s.host, p, s.studios[p]);
  }

  // Only the owner itself, or its crash, moves the flock away from a lease.
  lemma {:induction false} OwnerMoves(s: Sys, a: Action, p: Pid)
    requires Inv(s) && Enabled(s, a) && a != Crash(p)
    requires s.host.owner == Some(ByLease(p)) && Apply(s, a).host.owner != s.host.owner
    ensures StudioAction(a) && a.p == p && p in s.studios
  {
    if StudioAction(a) {
      OwnerMovesLocal(s.host, s.studios[a.p], a);
    } else if a.Media? {
      MediaLocal(s.host, a.p, s.media[a.p], a.move);
    }
  }

  lemma {:induction false} OwnerMovesLocal(h: Host, st: Studio, a: Action)
    requires StudioAction(a) && StudioOk(h, a.p, st) && StudioEnabled(h, st, a)
    ensures StudioApply(h, st, a).0.owner == h.owner
         || h.owner == None || h.owner == Some(ByLease(a.p)) || h.owner == Some(ByProbe(a.p))
  {
  }

  // The steps that close the lease.
  ghost predicate Releases(a: Action) {
    match a
    case Create(_, m) => m.CreateUndo?
    case Run(_, m) => m.RunRelease?
    case Close(_, m) => m.CloseRelease?
    case _ => false
  }

  lemma {:induction false} ReleaseSteps(h: Host, st: Studio, a: Action)
    requires StudioAction(a) && StudioOk(h, a.p, st) && StudioEnabled(h, st, a)
    requires st.lease && StudioApply(h, st, a).0.owner != h.owner
    ensures Releases(a)
  {
  }

  lemma {:induction false} ReleaseLocal(h: Host, st: Studio, a: Action)
    requires StudioAction(a) && ContainersMarked(h) && StudioOk(h, a.p, st) && StudioEnabled(h, st, a)
    requires st.lease && Releases(a) && StudioApply(h, st, a).0.owner != h.owner
    ensures var file' := StudioApply(h, st, a).0.file;
      && (st.active.Some? ==> h.containers == {})
      && (file' == "" ==> h.containers == {})
      && (Own(h, st.scope) != {} ==> file' == h.file == Marker(st.scope))
  {
    Facts(h, a.p, st);
    if Own(h, st.scope) != {} {
      var c :| c in Own(h, st.scope);
      assert h.file == Marker(c.scope);
    }
  }

  /**
   A lease given up without a crash leaves no container of an admitted job behind;
   if an older container survives (recovery failed), so does its marker.
   */
  lemma {:induction false} ReleaseIsConfirmed(s: Sys, a: Action, p: Pid)
    requires Reachable(s) && Enabled(s, a) && a != Crash(p)
    requires s.host.owner == Some(ByLease(p)) && Apply(s, a).host.owner != s.host.owner
    ensures p in s.studios
    ensures s.studios[p].active.Some? ==> s.host.containers == {}
    ensures Apply(s, a).host.file == "" ==> s.host.containers == {}
    ensures Own(s.host, s.studios[p].scope) != {} ==>
              Apply(s, a).host.file == s.host.file == Marker(s.studios[p].scope)
  {
    ReachableInv(s);
    OwnerMoves(s, a, p);
    ReleaseSteps(s.host, s.studios[p], a);
    ReleaseLocal(s.host, s.studios[p], a);
  }

  ghost predicate RecoveryRemoval(a: Action) {
    (a.Probe? && a.probe.ProbeRemove?) || (a.Create? && a.create.CreateRemove?)
  }

  ghost function Removed(a: Action): Container
    requires RecoveryRemoval(a)
  {
    if a.Probe? then a.probe.c else a.create.c
  }

  /** Recovery never removes the container of a job that is running anywhere. */
  lemma {:induction false} RecoveryTouchesNoActiveJob(s: Sys, a: Action)
    requires Reachable(s) && Enabled(s, a) && RecoveryRemoval(a)
    ensures forall q | q in s.studios :: s.studios[q].active == None || s.studios[q].job.Unleased?
    ensures Removed(a) in s.host.containers ==> Removed(a).scope == s.studios[a.p].scope
  {
    ReachableInv(s);
    assert StudioOk(s.host, a.p, s.studios[a.p]);
    forall q | q in s.studios ensures s.studios[q].active == None || s.studios[q].job.Unleased? {
      assert StudioOk(s.host, q, s.studios[q]);
    }
    if Removed(a) in s.host.containers {
      MarkerInjective(Removed(a).scope, s.studios[a.p].scope);
    }
  }

  lemma {:induction false} FileChangesLocal(h: Host, st: Studio, a: Action)
    requires StudioAction(a) && ContainersMarked(h) && StudioOk(h, a.p, st) && StudioEnabled(h, st, a)
    requires StudioApply(h, st, a).0.file != h.file
    ensures var file' := StudioApply(h, st, a).0.file;
      || (h.file == "" && a.Create? && a.create.CreateWrite? && file' <= Marker(st.scope))
      || (h.file == Marker(st.scope) && file' == "" && h.containers == {})
  {
    Facts(h, a.p, st);
  }

  /**
   The lock file changes only when an admitted Studio writes (a prefix of) its
   marker into an empty file, or erases its own whole marker with no container left.
   */
  lemma {:induction false} FileChanges(s: Sys, a: Action)
    requires Inv(s) && Enabled(s, a) && Apply(s, a).host.file != s.host.file
    ensures StudioAction(a) && a.p in s.studios
    ensures
      || (s.host.file == "" && a.Create? && a.create.CreateWrite?
          && Apply(s, a).host.file <= Marker(s.studios[a.p].scope))
      || (s.host.file == Marker(s.studios[a.p].scope) && Apply(s, a).host.file == "" && s.host.containers == {})
  {
    if a.Media? { MediaLocal(s.host, a.p, s.media[a.p], a.move); }
    FileChangesLocal(s.host, s.studios[a.p], a);
  }

  // --- which lock files can still be recovered ----------------------------

  /** An interrupted `write` of the marker leaves a file that nobody recognises. */
  lemma {:induction false} PartialMarkerPoisons(s: Sys, p: Pid, count: nat)
    requires Enabled(s, Create(p, CreateWrite(count)))
    requires 0 < count < |Marker(s.studios[p].scope)|
    ensures Poisoned(Apply(s, Create(p, CreateWrite(count))).host.file)
  {
    var file := Apply(s, Create(p, CreateWrite(count))).host.file;
    forall scope ensures file != Marker(scope) {
      assert |Marker(scope)| == |Marker(s.studios[p].scope)|;
    }
  }

  lemma {:induction false} PoisonedStep(s: Sys, a: Action)
    requires Inv(s) && Poisoned(s.host.file) && Enabled(s, a)
    ensures Apply(s, a).host.file == s.host.file
  {
    if Apply(s, a).host.file != s.host.file { FileChanges(s, a); }
  }

  /** Under a marker no media worker renders; only a renderer that was let go can be alive. */
  lemma {:induction false} NoRenderUnderMarker(s: Sys)
    requires Reachable(s) && s.host.file != ""
    ensures s.renders == {} && Alive(s) <= 1 + s.orphans
    ensures forall p | p in s.media :: !s.media[p].MediaHeld? && !s.media[p].MediaRendering?
  {
    ReachableInv(s);
    OneHolder(s);
    forall p | p in s.media ensures !s.media[p].MediaHeld? && !s.media[p].MediaRendering? {
      assert MediaOk(s.host, p, s.media[p]);
    }
  }

  /** From then on no run ever admits a renderer again, whoever restarts. */
  lemma {:induction false} PoisonedForever(s: Sys, trace: seq<Action>)
    requires Inv(s) && Poisoned(s.host.file) && Runs(s, trace)
    ensures Inv(After(s, trace)) && After(s, trace).host.file == s.host.file
    ensures After(s, trace).host.containers == {} && After(s, trace).renders == {}
    decreases |trace|
  {
    if trace == [] {
      OneHolder(s);
    } else {
      PoisonedStep(s, trace[0]);
      InvPreserved(s, trace[0]);
      PoisonedForever(Apply(s, trace[0]), trace[1..]);
    }
  }

  // --- what can still happen ------------------------------------------------

  // A run in which no worker lets go of a renderer, and where it ends.
  ghost predicate Leads(s: Sys, trace: seq<Action>, end: Sys) {
    Runs(s, trace) && Tended(trace) && After(s, trace) == end
  }

  ghost predicate Next(s: Sys, a: Action, end: Sys) {
    Enabled(s, a) && !Orphaning(a) && Apply(s, a) == end
  }

  lemma {:induction false} Prepend(s: Sys, a: Action, mid: Sys, trace: seq<Action>, end: Sys)
    requires Next(s, a, mid) && Leads(mid, trace, end)
    ensures Leads(s, [a] + trace, end)
  {
    var all := [a] + trace;
    assert all[0] == a && all[1..] == trace;
    forall i | 0 <= i < |all| ensures !Orphaning(all[i]) {
      if i > 0 { assert all[i] == trace[i - 1]; }
    }
  }

  lemma {:induction false} Join(s: Sys, first: seq<Action>, mid: Sys, second: seq<Action>, end: Sys)
    requires Leads(s, first, mid) && Leads(mid, second, end)
    ensures Leads(s, first + second, end)
    decreases |first|
  {
    if first == [] {
      assert first + second == second;
    } else {
      forall i | 0 <= i < |first| - 1 ensures !Orphaning(first[1..][i]) { assert !Orphaning(first[i + 1]); }
      Join(Apply(s, first[0]), first[1..], mid, second, end);
      Prepend(s, first[0], Apply(s, first[0]), first[1..] + second, end);
      assert [first[0]] + (first[1..] + second) == first + second;
    }
  }

  lemma {:induction false} FreshPid(s: Sys) returns (p: Pid)
    ensures p !in s.studios && p !in s.media
  {
    p := Above(s.studios.Keys + s.media.Keys);
    assert p !in s.studios.Keys + s.media.Keys;
  }

  // Whoever holds the lock may crash.
  lemma {:induction false} FreeLock(s: Sys) returns (trace: seq<Action>, end: Sys)
    requires Inv(s)
    ensures Leads(s, trace, end) && Inv(end) && end.host == s.host.(owner := None) && end.orphans == s.orphans
  {
    if s.host.owner == None {
      trace, end := [], s;
    } else {
      var a := Crash(s.host.owner.value.p);
      trace, end := [a], Apply(s, a);
      InvPreserved(s, a);
      Prepend(s, a, end, [], end);
    }
  }

  lemma {:induction false} ListRun(s: Sys, scope: Scope) returns (trace: seq<Action>, end: Sys, p: Pid)
    requires Inv(s) && s.host.owner == None && s.host.file == Marker(scope)
    ensures Leads(s, trace, end) && end.host == s.host.(owner := Some(ByProbe(p))) && end.orphans == s.orphans
    ensures p in end.studios && end.studios[p] == NewStudio(scope).(probe := ProbeCleaning(s.host.containers))
  {
    p := FreshPid(s);
    MarkerExact(s.host.file, scope);
    OnlyOwn(s.host, scope);
    var s1 := Apply(s, StartStudio(p, scope));
    var s2 := Apply(s1, Probe(p, ProbeAcquire));
    end := Apply(s2, Probe(p, ProbeList));
    Prepend(s2, Probe(p, ProbeList), end, [], end);
    Prepend(s1, Probe(p, ProbeAcquire), s2, [Probe(p, ProbeList)], end);
    trace := [Probe(p, ProbeAcquire)] + [Probe(p, ProbeList)];
    Prepend(s, StartStudio(p, scope), s1, trace, end);
    trace := [StartStudio(p, scope)] + trace;
  }

  lemma {:induction false} SweepRun(s: Sys, p: Pid) returns (trace: seq<Action>, end: Sys)
    requires p in s.studios && s.studios[p].probe == ProbeCleaning(s.host.containers)
    requires s.host.file == Marker(s.studios[p].scope) && |s.host.containers| <= 1
    ensures Leads(s, trace, end) && end.host.file == "" && end.orphans == s.orphans
    decreases |s.host.containers|
  {
    if s.host.containers == {} {
      MarkerExact(s.host.file, s.studios[p].scope);
      trace, end := [Probe(p, ProbeClear)], Apply(s, Probe(p, ProbeClear));
      Prepend(s, Probe(p, ProbeClear), end, [], end);
    } else {
      var c :| c in s.host.containers;
      var a := Probe(p, ProbeRemove(c));
      var mid := Apply(s, a);
      assert |s.host.containers - {c}| == |s.host.containers| - 1;
      assert mid.host.containers == {};
      trace, end := SweepRun(mid, p);
      Prepend(s, a, mid, trace, end);
      trace := [a] + trace;
    }
  }

  // A restarted instance of the marker's scope clears it.
  lemma {:induction false} RecoveryRun(s: Sys, scope: Scope) returns (trace: seq<Action>, end: Sys)
    requires Inv(s) && s.host.file == Marker(scope)
    ensures Leads(s, trace, end) && end.host.file == "" && end.orphans == s.orphans
  {
    var free, s1 := FreeLock(s);
    OneHolder(s1);
    var list, s2, p := ListRun(s1, scope);
    Join(s, free, s1, list, s2);
    var sweep;
    sweep, end := SweepRun(s2, p);
    trace := free + list + sweep;
    Join(s, free + list, s2, sweep, end);
  }

  ghost predicate Frees(s: Sys, trace: seq<Action>) {
    Runs(s, trace) && After(s, trace).host.file == ""
  }

  /** A reachable lock file can be freed again exactly when it is not poisoned. */
  lemma {:induction false} LockFileFate(s: Sys)
    requires Reachable(s)
    ensures (exists trace :: Frees(s, trace)) <==> !Poisoned(s.host.file)
  {
    ReachableInv(s);
    if Poisoned(s.host.file) {
      forall trace | Runs(s, trace) ensures !Frees(s, trace) {
        PoisonedForever(s, trace);
      }
    } else if s.host.file == "" {
      assert Frees(s, []);
    } else {
      var scope :| s.host.file == Marker(scope);
      var trace, end := RecoveryRun(s, scope);
      assert Frees(s, trace);
    }
  }

  // --- runs that go wrong -----------------------------------------------------

  // A new Studio asks for the slot; `end` is ready for the request's checks.
  lemma {:induction false} InspectRun(p: Pid, scope: Scope) returns (trace: seq<Action>, end: Sys)
    ensures trace == [StartStudio(p, scope), Create(p, CreateAcquire), Create(p, CreateList), Create(p, CreateClear)]
    ensures Leads(Init, trace, end) && end.host.file == ""
    ensures p in end.studios && end.studios[p].job == Inspect && end.studios[p].scope == scope
  {
    var s1 := Apply(Init, StartStudio(p, scope));
    var s2 := Apply(s1, Create(p, CreateAcquire));
    Prepend(s1, Create(p, CreateAcquire), s2, [], s2);
    Prepend(Init, StartStudio(p, scope), s1, [Create(p, CreateAcquire)], s2);
    var first := [StartStudio(p, scope)] + [Create(p, CreateAcquire)];
    var second;
    second, end := EmptyRecovery(s2, p);
    Join(Init, first, s2, second, end);
    trace := first + second;
  }

  lemma {:induction false} EmptyRecovery(s: Sys, p: Pid) returns (trace: seq<Action>, end: Sys)
    requires p in s.studios && s.studios[p].job == Holding && s.studios[p].pending
    requires s.host.file == "" && s.host.containers == {}
    ensures trace == [Create(p, CreateList), Create(p, CreateClear)]
    ensures Leads(s, trace, end) && end.host.file == ""
    ensures p in end.studios && end.studios[p].job == Inspect && end.studios[p].scope == s.studios[p].scope
  {
    MarkerExact("", s.studios[p].scope);
    var mid := Apply(s, Create(p, CreateList));
    assert Own(s.host, s.studios[p].scope) == {};
    end := Apply(mid, Create(p, CreateClear));
    Prepend(mid, Create(p, CreateClear), end, [], end);
    Prepend(s, Create(p, CreateList), mid, [Create(p, CreateClear)], end);
    trace := [Create(p, CreateList)] + [Create(p, CreateClear)];
  }

  /** One request whose marker is cut off after its first byte poisons the lock file for good. */
  lemma {:induction false} PoisoningRun(p: Pid, scope: Scope, job: JobId) returns (trace: seq<Action>)
    ensures trace == [StartStudio(p, scope), Create(p, CreateAcquire), Create(p, CreateList),
                      Create(p, CreateClear), Create(p, CreateAdmit(job)), Create(p, CreateWrite(1))]
    ensures Runs(Init, trace) && Poisoned(After(Init, trace).host.file)
  {
    var ask, s1 := InspectRun(p, scope);
    var s2 := Apply(s1, Create(p, CreateAdmit(job)));
    PartialMarkerPoisons(s2, p, 1);
    var end := Apply(s2, Create(p, CreateWrite(1)));
    Prepend(s2, Create(p, CreateWrite(1)), end, [], end);
    Prepend(s1, Create(p, CreateAdmit(job)), s2, [Create(p, CreateWrite(1))], end);
    trace := [Create(p, CreateAdmit(job))] + [Create(p, CreateWrite(1))];
    Join(Init, ask, s1, trace, end);
    trace := ask + trace;
  }

  // With an empty file and a free lock a media worker gets to render.
  lemma {:induction false} RenderRun(s: Sys) returns (trace: seq<Action>, end: Sys, p: Pid)
    requires Inv(s) && s.host.owner == None && s.host.file == ""
    ensures Leads(s, trace, end) && Inv(end) && end.orphans == s.orphans && Alive(end) == 1 + s.orphans
    ensures p in end.media && end.media[p] == MediaRendering
  {
    OneHolder(s);
    p := FreshPid(s);
    var s1 := Apply(s, StartMedia(p));
    var s2 := Apply(s1, Media(p, MediaLock));
    Prepend(s1, Media(p, MediaLock), s2, [], s2);
    Prepend(s, StartMedia(p), s1, [Media(p, MediaLock)], s2);
    trace := [StartMedia(p)] + [Media(p, MediaLock)];
    InvAfter(s, trace);
    var more;
    more, end := CheckedRender(s2, p);
    Join(s, trace, s2, more, end);
    trace := trace + more;
    InvAfter(s, trace);
  }

  lemma {:induction false} CheckedRender(s: Sys, p: Pid) returns (trace: seq<Action>, end: Sys)
    requires p in s.media && s.media[p] == MediaLocked && s.host.file == ""
    requires s.host.containers == {} && s.renders == {}
    ensures Leads(s, trace, end) && end.orphans == s.orphans && Alive(end) == 1 + s.orphans
    ensures p in end.media && end.media[p] == MediaRendering
  {
    var mid := Apply(s, Media(p, MediaCheck));
    end := Apply(mid, Media(p, MediaRender));
    assert end.renders == {p};
    Prepend(mid, Media(p, MediaRender), end, [], end);
    Prepend(s, Media(p, MediaCheck), mid, [Media(p, MediaRender)], end);
    trace := [Media(p, MediaCheck)] + [Media(p, MediaRender)];
  }

  // Two renderers are alive at the end, although none is let go on the way.
  ghost predicate Collides(s: Sys, trace: seq<Action>) {
    Runs(s, trace) && Tended(trace) && Alive(After(s, trace)) > 1
  }

  lemma {:induction false} CollisionRun(s: Sys) returns (trace: seq<Action>)
    requires Inv(s) && s.orphans == 1 && !Poisoned(s.host.file)
    ensures Collides(s, trace)
  {
    var clear, s1 := [], s;
    if s.host.file != "" {
      var scope :| s.host.file == Marker(scope);
      clear, s1 := RecoveryRun(s, scope);
      InvAfter(s, clear);
    }
    var free, s2 := FreeLock(s1);
    Join(s, clear, s1, free, s2);
    var render, end, _ := RenderRun(s2);
    Join(s, clear + free, s2, render, end);
    trace := clear + free + render;
  }

  /**
   From a reachable state on, while no further renderer is let go, two renderers can
   be alive at once if and only if two that were let go still are, or one is and the
   lock file can still be cleared.
   */
  lemma {:induction false} ExclusionFate(s: Sys)
    requires Reachable(s)
    ensures (exists trace :: Collides(s, trace)) <==> s.orphans > 1 || (s.orphans == 1 && !Poisoned(s.host.file))
  {
    ReachableInv(s);
    if s.orphans > 1 {
      assert Collides(s, []);
    } else if s.orphans == 1 && !Poisoned(s.host.file) {
      var trace := CollisionRun(s);
    } else {
      forall trace | Runs(s, trace) && Tended(trace) ensures !Collides(s, trace) {
        OrphansAfter(s, trace);
        InvAfter(s, trace);
        OneHolder(After(s, trace));
        if Poisoned(s.host.file) { PoisonedForever(s, trace); }
      }
    }
  }

  lemma {:induction false} OneStep(s: Sys, a: Action)
    requires Enabled(s, a)
    ensures Runs(s, [a]) && After(s, [a]) == Apply(s, a)
  {
    assert ([a])[1..] == [];
    assert Runs(Apply(s, a), []);
  }

  lemma {:induction false} RunsJoin(s: Sys, first: seq<Action>, second: seq<Action>)
    requires Runs(s, first) && Runs(After(s, first), second)
    ensures Runs(s, first + second) && After(s, first + second) == After(After(s, first), second)
    decreases |first|
  {
    if first == [] {
      assert first + second == second;
    } else {
      assert (first + second)[1..] == first[1..] + second;
      RunsJoin(Apply(s, first[0]), first[1..], second);
    }
  }

  /** A worker that lets go of a renderer it could not reap brings about such a state. */
  lemma {:induction false} AbandonedCollides() returns (trace: seq<Action>)
    ensures Runs(Init, trace) && Alive(After(Init, trace)) > 1
  {
    var render, s1, p := RenderRun(Init);
    var a := Media(p, MediaAbandon);
    var s2 := Apply(s1, a);
    OneStep(s1, a);
    RunsJoin(Init, render, [a]);
    InvPreserved(s1, a);
    assert s2.host.file == "" by { assert MediaOk(s1.host, p, s1.media[p]); }
    var more := CollisionRun(s2);
    RunsJoin(Init, render + [a], more);
    trace := render + [a] + more;
  }
}
