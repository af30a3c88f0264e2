/**
 The invariant of the shared GPU slot, and that every step of every participant,
 and every crash, keeps it.
 */
module GpuSafety {
  import opened Results
  import opened GpuSlot

  // --- the marker names its writer ----------------------------------------

  lemma {:induction false} MarkerExact(file: string, scope: Scope)
    ensures HasMarker(file, scope) <==> file == Marker(scope)
    ensures Foreign(file, scope) <==> file != "" && file != Marker(scope)
    ensures Cleared(file, scope) == if file == Marker(scope) then "" else file
  {
  }

  lemma {:induction false} MarkerInjective(a: Scope, b: Scope)
    requires Marker(a) == Marker(b)
    ensures a == b
  {
    assert a == Marker(a)[|MARKER_PREFIX|..|MARKER_PREFIX| + 16];
    assert b == Marker(b)[|MARKER_PREFIX|..|MARKER_PREFIX| + 16];
  }

  // --- the invariant ------------------------------------------------------

  // At most one Studio container exists, and the file then names its scope.
  ghost predicate ContainersMarked(h: Host) {
    && (forall c | c in h.containers :: h.file == Marker(c.scope))
    && (forall c, d | c in h.containers && d in h.containers :: c == d)
  }

  ghost predicate OwnerExists(s: Sys) {
    match s.host.owner
    case None => true
    case Some(ByMedia(p)) => p in s.media
    case Some(holder) => holder.p in s.studios
  }

  ghost predicate ProbeOk(h: Host, p: Pid, st: Studio) {
    && (st.probe != ProbeOut <==> h.owner == Some(ByProbe(p)))
    && (st.probe.ProbeCleaning? ==>
          && Own(h, st.scope) <= st.probe.todo
          && (h.file == "" || h.file == Marker(st.scope)))
  }

  // What the lock file and the containers look like while this job owns the lease.
  ghost predicate Reserved(h: Host, st: Studio, most: set<Container>) {
    st.lease && h.file == Marker(st.scope) && h.containers <= most
  }

  ghost predicate JobOk(h: Host, st: Studio) {
    match st.job
    case Out => st.active == None && (st.lease ==> st.blocked && h.file == Marker(st.scope))
    case Holding => st.lease && st.active == None
    case Cleaning(todo) =>
      && st.lease && st.active == None
      && Own(h, st.scope) <= todo && (h.file == "" || h.file == Marker(st.scope))
    case Inspect => st.lease && st.active == None
    case Writing(j) => st.lease && st.active == Some(j) && h.file == ""
    case Written(j) => st.active == Some(j) && Reserved(h, st, {})
    case Marked(j) => st.active == Some(j) && Reserved(h, st, {})
    case Failing(marked) =>
      && st.lease && (marked ==> Reserved(h, st, {}))
      && (st.active.Some? ==> h.containers == {})
    case Unleased => !st.lease
    case Started(j) => st.active == Some(j) && Reserved(h, st, {})
    case Launched(j) => st.active == Some(j) && Reserved(h, st, {Container(st.scope, j)})
    case Returned(j, _) => st.active == Some(j) && Reserved(h, st, {Container(st.scope, j)})
    case Confirming(j, todo) =>
      st.active == Some(j) && Reserved(h, st, {Container(st.scope, j)}) && h.containers <= todo
    case Finishing(j, confirmed) =>
      && st.active == Some(j) && (st.blocked <==> !confirmed)
      && Reserved(h, st, if confirmed then {} else {Container(st.scope, j)})
    case Closing(todo) =>
      && st.active == None && st.blocked && st.closing && st.lease
      && Own(h, st.scope) <= todo && h.file == Marker(st.scope)
  }

  ghost predicate StudioOk(h: Host, p: Pid, st: Studio) {
    && ProbeOk(h, p, st)
    && (st.lease <==> h.owner == Some(ByLease(p)))
    && JobOk(h, st)
    && (st.blocked ==> st.job.Out? || st.job.Finishing? || st.job.Closing?)
    && (st.blocked && !st.closing ==> st.lease)
    && (st.closing ==>
          ManagerFree(st) || st.job.Confirming? || st.job.Finishing? || st.job.Closing? || st.job.Unleased?)
  }

  ghost predicate MediaOk(h: Host, p: Pid, stage: MediaStage) {
    && (stage != MediaOut <==> h.owner == Some(ByMedia(p)))
    && (stage.MediaHeld? || stage.MediaRendering? ==> h.file == "")
  }

  ghost predicate Inv(s: Sys) {
    && ContainersMarked(s.host)
    && OwnerExists(s)
    && s.studios.Keys !! s.media.Keys
    && (forall p | p in s.studios :: StudioOk(s.host, p, s.studios[p]))
    && (forall p | p in s.media :: MediaOk(s.host, p, s.media[p]))
    && (forall p :: p in s.renders <==> p in s.media && s.media[p].MediaRendering?)
  }

  // --- steps of a Studio ----------------------------------------------------

  // With an empty, or this instance's own, marker every container is this instance's.
  lemma {:induction false} OnlyOwn(h: Host, scope: Scope)
    requires ContainersMarked(h) && (h.file == "" || h.file == Marker(scope))
    ensures h.containers == Own(h, scope)
  {
    forall c | c in h.containers ensures c in Own(h, scope) {
      MarkerInjective(c.scope, scope);
    }
  }

  lemma {:induction false} Facts(h: Host, p: Pid, st: Studio)
    requires ContainersMarked(h) && StudioOk(h, p, st)
    ensures HasMarker(h.file, st.scope) <==> h.file == Marker(st.scope)
    ensures Foreign(h.file, st.scope) <==> h.file != "" && h.file != Marker(st.scope)
    ensures Cleared(h.file, st.scope) == if h.file == Marker(st.scope) then "" else h.file
    ensures !Foreign(h.file, st.scope) ==> h.containers == Own(h, st.scope)
  {
    MarkerExact(h.file, st.scope);
    if !Foreign(h.file, st.scope) { OnlyOwn(h, st.scope); }
  }

  ghost predicate Local(h: Host, st: Studio, next: (Host, Studio), p: Pid) {
    && ContainersMarked(next.0) && StudioOk(next.0, p, next.1)
    && (   (h.owner == next.0.owner && h.file == next.0.file && next.0.containers <= h.containers)
        || (   (h.owner == None || h.owner == Some(ByLease(p)) || h.owner == Some(ByProbe(p)))
            && (next.0.owner == None || next.0.owner == Some(ByLease(p)) || next.0.owner == Some(ByProbe(p)))))
  }

  lemma {:induction false} ProbeLocal(h: Host, st: Studio, p: Pid, m: ProbeMove)
    requires ContainersMarked(h) && StudioOk(h, p, st) && ProbeEnabled(h, st, m)
    ensures Local(h, st, ProbeApply(h, st, p, m), p)
  {
    Facts(h, p, st);
  }

  lemma {:induction false} CreateLocal(h: Host, st: Studio, p: Pid, m: CreateMove)
    requires ContainersMarked(h) && StudioOk(h, p, st) && CreateEnabled(h, st, m)
    ensures Local(h, st, CreateApply(h, st, p, m), p)
  {
    Facts(h, p, st);
    if m.CreateWrite? {
      var marker := Marker(st.scope);
      assert h.containers == {};
      if m.count == |marker| { assert marker[..m.count] == marker; }
    }
  }

  lemma {:induction false} RunRenderLocal(h: Host, st: Studio, p: Pid, m: RunMove)
    requires m.RunRefused? || m.RunLaunch? || m.RunRemove?
    requires ContainersMarked(h) && StudioOk(h, p, st) && RunEnabled(h, st, m)
    ensures Local(h, st, RunApply(h, st, m), p)
  {
  }

  lemma {:induction false} RunTailLocal(h: Host, st: Studio, p: Pid, m: RunMove)
    requires !(m.RunRefused? || m.RunLaunch? || m.RunRemove?)
    requires ContainersMarked(h) && StudioOk(h, p, st) && RunEnabled(h, st, m)
    ensures Local(h, st, RunApply(h, st, m), p)
  {
    Facts(h, p, st);
  }

  lemma {:induction false} CloseLocal(h: Host, st: Studio, p: Pid, m: CloseMove)
    requires ContainersMarked(h) && StudioOk(h, p, st) && CloseEnabled(h, st, m)
    ensures Local(h, st, CloseApply(h, st, m), p)
  {
    Facts(h, p, st);
    if m.CloseSweep? { Fewer(h, CloseApply(h, st, m).0, p, st); }
  }

  // A Studio that holds no descriptor does not care what the holder does.
  lemma {:induction false} Bystander(h: Host, h': Host, p: Pid, st: Studio)
    requires StudioOk(h, p, st)
    requires h.owner != Some(ByLease(p)) && h.owner != Some(ByProbe(p))
    requires h'.owner != Some(ByLease(p)) && h'.owner != Some(ByProbe(p))
    ensures StudioOk(h', p, st)
  {
  }

  lemma {:induction false} Fewer(h: Host, h': Host, p: Pid, st: Studio)
    requires StudioOk(h, p, st)
    requires h'.owner == h.owner && h'.file == h.file && h'.containers <= h.containers
    ensures StudioOk(h', p, st)
  {
    assert Own(h', st.scope) <= Own(h, st.scope);
  }

  lemma {:induction false} LocalSuffices(s: Sys, next: (Host, Studio), p: Pid)
    requires Inv(s) && p in s.studios && Local(s.host, s.studios[p], next, p)
    ensures Inv(s.(host := next.0, studios := s.studios[p := next.1]))
  {
    var h, h' := s.host, next.0;
    forall q | q in s.studios && q != p ensures StudioOk(h', q, s.studios[q]) {
      if h'.owner == h.owner && h'.file == h.file && h'.containers <= h.containers {
        Fewer(h, h', q, s.studios[q]);
      } else {
        Bystander(h, h', q, s.studios[q]);
      }
    }
  }

  lemma {:induction false} StudioSteps(s: Sys, a: Action)
    requires Inv(s) && Enabled(s, a) && StudioAction(a)
    ensures Inv(Apply(s, a))
  {
    var h, st := s.host, s.studios[a.p];
    match a {
      case Probe(p, m) => ProbeLocal(h, st, p, m);
      case Create(p, m) => CreateLocal(h, st, p, m);
      case Run(p, m) =>
        if m.RunRefused? || m.RunLaunch? || m.RunRemove? {
          RunRenderLocal(h, st, p, m);
        } else {
          RunTailLocal(h, st, p, m);
        }
      case Close(p, m) => CloseLocal(h, st, p, m);
    }
    LocalSuffices(s, StudioApply(h, st, a), a.p);
  }

  // --- every other step -----------------------------------------------------

  lemma {:induction false} FewerContainers(s: Sys, c: Container)
    requires Inv(s)
    ensures Inv(s.(host := s.host.(containers := s.host.containers - {c})))
  {
    var h' := s.host.(containers := s.host.containers - {c});
    forall q | q in s.studios ensures StudioOk(h', q, s.studios[q]) {
      Fewer(s.host, h', q, s.studios[q]);
    }
  }

  lemma {:induction false} MediaLocal(h: Host, p: Pid, stage: MediaStage, m: MediaMove)
    requires MediaEnabled(h, stage, m) && MediaOk(h, p, stage)
    ensures var (h', stage') := MediaApply(h, p, stage, m);
      && MediaOk(h', p, stage') && h'.file == h.file && h'.containers == h.containers
      && (h.owner == None || h.owner == Some(ByMedia(p)))
      && (h'.owner == None || h'.owner == Some(ByMedia(p)))
  {
  }

  lemma {:induction false} MediaSteps(s: Sys, p: Pid, m: MediaMove)
    requires Inv(s) && Enabled(s, Media(p, m))
    ensures Inv(Apply(s, Media(p, m)))
  {
    MediaLocal(s.host, p, s.media[p], m);
    var h' := MediaApply(s.host, p, s.media[p], m).0;
    forall q | q in s.studios ensures StudioOk(h', q, s.studios[q]) {
      Bystander(s.host, h', q, s.studios[q]);
    }
  }

  lemma {:induction false} StartStep(s: Sys, a: Action)
    requires Inv(s) && Enabled(s, a) && (a.StartStudio? || a.StartMedia?)
    ensures Inv(Apply(s, a))
  {
    assert s.host.owner != Some(ByLease(a.p)) && s.host.owner != Some(ByProbe(a.p));
    assert s.host.owner != Some(ByMedia(a.p));
  }

  lemma {:induction false} CrashStep(s: Sys, p: Pid)
    requires Inv(s)
    ensures Inv(Crashed(s, p))
  {
    var s' := Crashed(s, p);
    forall q | q in s'.studios ensures StudioOk(s'.host, q, s'.studios[q]) {
      assert StudioOk(s.host, q, s.studios[q]);
      if s'.host != s.host { Bystander(s.host, s'.host, q, s.studios[q]); }
    }
    forall q | q in s'.media ensures MediaOk(s'.host, q, s'.media[q]) {
      assert MediaOk(s.host, q, s.media[q]);
    }
  }

  /** Every step of every participant, and every crash, keeps the invariant. */
  lemma {:induction false} InvPreserved(s: Sys, a: Action)
    requires Inv(s) && Enabled(s, a)
    ensures Inv(Apply(s, a))
  {
    match a {
      case StartStudio(p, _) => StartStep(s, a);
      case StartMedia(p) => StartStep(s, a);
      case Crash(p) => CrashStep(s, p);
      case CrashOutlived(p) => CrashStep(s, p);
      case OrphanEnds =>
      case ContainerGone(c) => FewerContainers(s, c);
      case Media(p, m) => MediaSteps(s, p, m);
      case _ => StudioSteps(s, a);
    }
  }

  lemma {:induction false} InvAfter(s: Sys, trace: seq<Action>)
    requires Inv(s) && Runs(s, trace)
    ensures Inv(After(s, trace))
    decreases |trace|
  {
    if trace != [] {
      InvPreserved(s, trace[0]);
      InvAfter(Apply(s, trace[0]), trace[1..]);
    }
  }

  lemma {:induction false} ReachableInv(s: Sys)
    requires Reachable(s)
    ensures Inv(s)
  {
    var trace :| Runs(Init, trace) && After(Init, trace) == s;
    InvAfter(Init, trace);
  }
}
