/**
 The shared GPU slot: Chroma Studio, the media worker and one lock file.

 Every participant takes `flock` on the same inode.  Studio also writes a marker
 into that inode, because its renderer is a detached container that survives a
 crash of the Studio process.  The model is a transition system: one `Action` is
 one system call, Docker command or variable update, so any two participants may
 interleave between any two of them, and a process may crash at any point.
 */
module GpuSlot {
  import opened Results

  type Pid = nat
  type JobId = nat

  // First 16 hex digits of the digest of a state directory: it names a Studio instance.
  type Scope = s: string | |s| == 16 witness "0000000000000000"

  datatype Container = Container(scope: Scope, job: JobId)

  // Who holds the exclusive flock.  A Studio process opens the file separately for a
  // generation (`gpu_lease`) and for a readiness probe or startup recovery.
  datatype Holder = ByLease(p: Pid) | ByProbe(p: Pid) | ByMedia(p: Pid)

  // What all participants share.
  datatype Host = Host(
    file: string,                  // bytes of the lock file
    owner: Option<Holder>,
    containers: set<Container>)    // every Studio container that exists

  // The probe thread of `_gpu_available` or of `start`, while it holds the flock.
  datatype ProbeStage =
    | ProbeOut
    | ProbeHolding
    | ProbeCleaning(todo: set<Container>)
    | ProbeDone

  // The create request, then the job thread, then the tail of `close`.
  datatype JobStage =
    | Out
    | Holding                                   // lease just acquired
    | Cleaning(todo: set<Container>)            // recovery under the lease
    | Inspect                                   // size and readiness still to be checked
    | Writing(job: JobId)                       // admitted, marker not yet written
    | Written(job: JobId)                       // marker written, not yet synced
    | Marked(job: JobId)                        // marker durable, thread not yet started
    | Failing(marked: bool)                     // the except branch of create
    | Unleased                                  // lease closed, `active` still set
    | Started(job: JobId)                       // job thread before `docker run`
    | Launched(job: JobId)                      // `docker run` has been issued
    | Returned(job: JobId, uncertain: bool)     // runner.run is over
    | Confirming(job: JobId, todo: set<Container>)
    | Finishing(job: JobId, confirmed: bool)
    | Closing(todo: set<Container>)

  datatype Studio = Studio(
    scope: Scope,
    probe: ProbeStage,
    job: JobStage,
    lease: bool,             // gpu_lease is not None
    active: Option<JobId>,
    blocked: bool,           // blocked_reason is not None
    pending: bool,           // recovery_pending
    closing: bool)           // shutdown has begun, no request is admitted

  function NewStudio(scope: Scope): Studio {
    Studio(scope, ProbeOut, Out, false, None, false, true, false)
  }

  datatype MediaStage = MediaOut | MediaLocked | MediaHeld | MediaRendering

  datatype Sys = Sys(
    host: Host,
    renders: set<Pid>,             // media workers that hold the slot for a renderer
    orphans: nat,                  // renderers still alive whose worker let go of the slot
    studios: map<Pid, Studio>,
    media: map<Pid, MediaStage>)

  const Init: Sys := Sys(Host("", None, {}), {}, 0, map[], map[])

  /** Everything that may be computing on the GPU. */
  function Alive(s: Sys): nat { |s.host.containers| + |s.renders| + s.orphans }

  // --- the marker ---------------------------------------------------------

  const MARKER_PREFIX: string := "chroma-studio-v1:"

  function Marker(scope: Scope): (m: string)
    ensures |m| == |MARKER_PREFIX| + 17
  {
    MARKER_PREFIX + scope + "\n"
  }

  function Pread(file: string, size: nat): string {
    if |file| <= size then file else file[..size]
  }

  predicate HasMarker(file: string, scope: Scope) {
    Pread(file, |Marker(scope)| + 1) == Marker(scope)
  }

  predicate Foreign(file: string, scope: Scope) {
    var found := Pread(file, |Marker(scope)| + 1);
    found != "" && found != Marker(scope)
  }

  function Cleared(file: string, scope: Scope): string {
    if HasMarker(file, scope) then "" else file
  }

  function Own(h: Host, scope: Scope): set<Container> {
    set c | c in h.containers && c.scope == scope
  }

  // --- the readiness probe and startup recovery -----------------------------

  datatype ProbeMove =
    | ProbeAcquire
    | ProbeSkip                 // nothing pending, a foreign marker, or Docker failed
    | ProbeList
    | ProbeRemove(c: Container)
    | ProbeClear
    | ProbeAbandon
    | ProbeRelease

  predicate ProbeEnabled(h: Host, st: Studio, m: ProbeMove) {
    match m
    case ProbeAcquire => h.owner == None && !st.closing
    case ProbeSkip => st.probe == ProbeHolding
    case ProbeList => st.probe == ProbeHolding && st.pending && !Foreign(h.file, st.scope)
    case ProbeRemove(c) => st.probe.ProbeCleaning? && c in st.probe.todo
    case ProbeClear => st.probe == ProbeCleaning({})
    case ProbeAbandon => st.probe.ProbeCleaning?
    case ProbeRelease => st.probe == ProbeDone
  }

  function ProbeApply(h: Host, st: Studio, p: Pid, m: ProbeMove): (Host, Studio)
    requires ProbeEnabled(h, st, m)
  {
    match m
    case ProbeAcquire => (h.(owner := Some(ByProbe(p))), st.(probe := ProbeHolding))
    case ProbeSkip => (h, st.(probe := ProbeDone))
    case ProbeList => (h, st.(probe := ProbeCleaning(Own(h, st.scope))))
    case ProbeRemove(c) =>
      (h.(containers := h.containers - {c}), st.(probe := ProbeCleaning(st.probe.todo - {c})))
    case ProbeClear =>
      (h.(file := Cleared(h.file, st.scope)), st.(probe := ProbeDone, pending := false))
    case ProbeAbandon => (h, st.(probe := ProbeDone))
    case ProbeRelease => (h.(owner := None), st.(probe := ProbeOut))
  }

  // --- create ---------------------------------------------------------------

  datatype CreateMove =
    | CreateAcquire
    | CreateSkip                // nothing pending, or a foreign marker
    | CreateList
    | CreateRemove(c: Container)
    | CreateClear
    | CreateReject              // an exception before the job is registered
    | CreateAdmit(j: JobId)
    | CreateWrite(count: nat)   // bytes of the marker that reached the file
    | CreateSync(ok: bool)
    | CreateStart(ok: bool)     // job record saved and thread started
    | CreateUndo                // _release_gpu_lease in the except branch
    | ClearActive

  predicate CreateEnabled(h: Host, st: Studio, m: CreateMove) {
    match m
    case CreateAcquire => st.job.Out? && h.owner == None && !st.closing && !st.blocked && st.active == None
    case CreateSkip => st.job.Holding? && (!st.pending || Foreign(h.file, st.scope))
    case CreateList => st.job.Holding? && st.pending && !Foreign(h.file, st.scope)
    case CreateRemove(c) => st.job.Cleaning? && c in st.job.todo
    case CreateClear => st.job == Cleaning({})
    case CreateReject => st.job.Holding? || st.job.Cleaning? || st.job.Inspect?
    case CreateAdmit(_) => st.job.Inspect? && h.file == ""
    case CreateWrite(count) => st.job.Writing? && count <= |Marker(st.scope)|
    case CreateSync(_) => st.job.Written?
    case CreateStart(_) => st.job.Marked?
    case CreateUndo => st.job.Failing?
    case ClearActive => st.job.Unleased?
  }

  function CreateApply(h: Host, st: Studio, p: Pid, m: CreateMove): (Host, Studio)
    requires CreateEnabled(h, st, m)
  {
    match m
    case CreateAcquire => (h.(owner := Some(ByLease(p))), st.(job := Holding, lease := true))
    case CreateSkip => (h, st.(job := Inspect))
    case CreateList => (h, st.(job := Cleaning(Own(h, st.scope))))
    case CreateRemove(c) =>
      (h.(containers := h.containers - {c}), st.(job := Cleaning(st.job.todo - {c})))
    case CreateClear =>
      (h.(file := Cleared(h.file, st.scope)), st.(job := Inspect, pending := false))
    case CreateReject => (h, st.(job := Failing(false)))
    case CreateAdmit(j) => (h, st.(job := Writing(j), active := Some(j)))
    case CreateWrite(count) =>
      var whole := count == |Marker(st.scope)|;
      (h.(file := Marker(st.scope)[..count]), st.(job := if whole then Written(st.job.job) else Failing(false)))
    case CreateSync(ok) => (h, st.(job := if ok then Marked(st.job.job) else Failing(false)))
    case CreateStart(ok) => (h, st.(job := if ok then Started(st.job.job) else Failing(true)))
    case CreateUndo =>
      (h.(owner := None, file := if st.job.marked then Cleared(h.file, st.scope) else h.file),
       st.(job := Unleased, lease := false))
    case ClearActive => (h, st.(job := Out, active := None))
  }

  // --- the job thread ---------------------------------------------------------

  datatype RunMove =
    | RunRefused                // admission, cancellation or a write error before launch
    | RunLaunch(created: bool)
    | RunRemove(removed: bool, certain: bool)
    | RunList
    | RunUncertain
    | RunSweep(c: Container)
    | RunConfirmed
    | RunRelease

  predicate RunEnabled(h: Host, st: Studio, m: RunMove) {
    match m
    case RunRefused => st.job.Started?
    case RunLaunch(_) => st.job.Started?
    // `certain` is a truthful report of absence: a successful rm, or an empty listing.
    case RunRemove(removed, certain) =>
      st.job.Launched? && (certain ==> removed || Container(st.scope, st.job.job) !in h.containers)
    case RunList => st.job.Returned?
    case RunUncertain => st.job.Returned? || st.job.Confirming?
    case RunSweep(c) => st.job.Confirming? && c in st.job.todo
    case RunConfirmed => st.job.Confirming? && st.job.todo == {}
    case RunRelease => st.job.Finishing?
  }

  function RunApply(h: Host, st: Studio, m: RunMove): (Host, Studio)
    requires RunEnabled(h, st, m)
  {
    match m
    case RunRefused => (h, st.(job := Returned(st.job.job, false)))
    case RunLaunch(created) =>
      (if created then h.(containers := h.containers + {Container(st.scope, st.job.job)}) else h,
       st.(job := Launched(st.job.job)))
    case RunRemove(removed, certain) =>
      (if removed then h.(containers := h.containers - {Container(st.scope, st.job.job)}) else h,
       st.(job := Returned(st.job.job, !certain)))
    // Only a report of `renderer_cleanup_failed` skips this listing; an exception that
    // masks that report does not.
    case RunList => (h, st.(job := Confirming(st.job.job, Own(h, st.scope))))
    case RunUncertain => (h, st.(job := Finishing(st.job.job, false), blocked := true))
    case RunSweep(c) =>
      (h.(containers := h.containers - {c}), st.(job := Confirming(st.job.job, st.job.todo - {c})))
    case RunConfirmed => (h, st.(job := Finishing(st.job.job, true)))
    case RunRelease =>
      if st.blocked then (h, st.(job := Out, active := None))
      else (h.(owner := None, file := Cleared(h.file, st.scope)), st.(job := Unleased, lease := false))
  }

  // --- shutdown ---------------------------------------------------------------

  datatype CloseMove =
    | BeginClose
    | CloseSweep(c: Container)  // a job thread that does not end loses its container
    | CloseList
    | CloseRemove(c: Container)
    | CloseRelease

  /** Nobody is inside a section guarded by the manager's own lock. */
  predicate ManagerFree(st: Studio) {
    st.job.Out? || st.job.Started? || st.job.Launched? || st.job.Returned?
  }

  predicate CloseEnabled(h: Host, st: Studio, m: CloseMove) {
    match m
    // Shutdown starts once no request is in flight, so never inside create.
    case BeginClose => ManagerFree(st)
    case CloseSweep(c) => st.closing && c in Own(h, st.scope)
    case CloseList => st.job.Out? && st.closing && st.lease
    case CloseRemove(c) => st.job.Closing? && c in st.job.todo
    case CloseRelease => st.job == Closing({})
  }

  function CloseApply(h: Host, st: Studio, m: CloseMove): (Host, Studio)
    requires CloseEnabled(h, st, m)
  {
    match m
    case BeginClose => (h, st.(closing := true))
    case CloseSweep(c) => (h.(containers := h.containers - {c}), st)
    case CloseList => (h, st.(job := Closing(Own(h, st.scope))))
    case CloseRemove(c) =>
      (h.(containers := h.containers - {c}), st.(job := Closing(st.job.todo - {c})))
    case CloseRelease =>
      (h.(owner := None, file := Cleared(h.file, st.scope)), st.(job := Out, lease := false))
  }

  // --- the media worker -------------------------------------------------------

  datatype MediaMove =
    | MediaLock
    | MediaCheck
    | MediaRender
    | MediaRenderEnd
    | MediaRelease
    // The wait for a killed renderer times out, or a descendant outlives its group leader:
    // the slot is released all the same.
    | MediaAbandon

  predicate MediaEnabled(h: Host, stage: MediaStage, m: MediaMove) {
    match m
    case MediaLock => stage.MediaOut? && h.owner == None
    case MediaCheck => stage.MediaLocked? && h.file == ""
    case MediaRender => stage.MediaHeld?
    case MediaRenderEnd => stage.MediaRendering?
    case MediaRelease => stage.MediaLocked? || stage.MediaHeld?
    case MediaAbandon => stage.MediaRendering?
  }

  function MediaApply(h: Host, p: Pid, stage: MediaStage, m: MediaMove): (Host, MediaStage)
    requires MediaEnabled(h, stage, m)
  {
    match m
    case MediaLock => (h.(owner := Some(ByMedia(p))), MediaLocked)
    case MediaCheck => (h, MediaHeld)
    case MediaRender => (h, MediaRendering)
    case MediaRenderEnd => (h, MediaHeld)
    case MediaRelease => (h.(owner := None), MediaOut)
    case MediaAbandon => (h.(owner := None), MediaOut)
  }

  // --- the whole system -------------------------------------------------------

  datatype Action =
    | StartStudio(p: Pid, scope: Scope)
    | StartMedia(p: Pid)
    | Crash(p: Pid)                   // a sandboxed renderer dies with its media worker
    | CrashOutlived(p: Pid)           // a renderer without sandbox does not
    | OrphanEnds
    | ContainerGone(c: Container)     // by an operator, or by a command whose report was lost
    | Probe(p: Pid, probe: ProbeMove)
    | Create(p: Pid, create: CreateMove)
    | Run(p: Pid, run: RunMove)
    | Close(p: Pid, close: CloseMove)
    | Media(p: Pid, move: MediaMove)

  /** A media worker lets go of the slot while its renderer is alive. */
  predicate Orphaning(a: Action) { a.CrashOutlived? || (a.Media? && a.move.MediaAbandon?) }

  predicate StudioAction(a: Action) { a.Probe? || a.Create? || a.Run? || a.Close? }

  predicate StudioEnabled(h: Host, st: Studio, a: Action) {
    match a
    case Probe(_, m) => ProbeEnabled(h, st, m)
    case Create(_, m) => CreateEnabled(h, st, m)
    case Run(_, m) => RunEnabled(h, st, m)
    case Close(_, m) => CloseEnabled(h, st, m)
    case _ => false
  }

  function StudioApply(h: Host, st: Studio, a: Action): (Host, Studio)
    requires StudioEnabled(h, st, a)
  {
    match a
    case Probe(p, m) => ProbeApply(h, st, p, m)
    case Create(p, m) => CreateApply(h, st, p, m)
    case Run(_, m) => RunApply(h, st, m)
    case Close(_, m) => CloseApply(h, st, m)
  }

  predicate Enabled(s: Sys, a: Action) {
    match a
    case StartStudio(p, _) => p !in s.studios && p !in s.media
    case StartMedia(p) => p !in s.studios && p !in s.media
    case Crash(p) => p in s.studios || p in s.media
    case CrashOutlived(p) => p in s.renders && p in s.media
    case OrphanEnds => s.orphans > 0
    case ContainerGone(c) => c in s.host.containers
    case Media(p, m) => p in s.media && MediaEnabled(s.host, s.media[p], m)
    case _ => a.p in s.studios && StudioEnabled(s.host, s.studios[a.p], a)
  }

  // The kernel drops the flock; a Studio container does not die with its Studio.
  function Crashed(s: Sys, p: Pid): Sys {
    s.(host := if s.host.owner.Some? && s.host.owner.value.p == p then s.host.(owner := None) else s.host,
       renders := s.renders - {p},
       studios := s.studios - {p},
       media := s.media - {p})
  }

  function Apply(s: Sys, a: Action): Sys
    requires Enabled(s, a)
  {
    match a
    case StartStudio(p, scope) => s.(studios := s.studios[p := NewStudio(scope)])
    case StartMedia(p) => s.(media := s.media[p := MediaOut])
    case Crash(p) => Crashed(s, p)
    case CrashOutlived(p) => Crashed(s, p).(orphans := s.orphans + 1)
    case OrphanEnds => s.(orphans := s.orphans - 1)
    case ContainerGone(c) => s.(host := s.host.(containers := s.host.containers - {c}))
    case Media(p, m) =>
      var (h, stage) := MediaApply(s.host, p, s.media[p], m);
      s.(host := h,
         media := s.media[p := stage],
         renders := if stage.MediaRendering? then s.renders + {p} else s.renders - {p},
         orphans := if m.MediaAbandon? then s.orphans + 1 else s.orphans)
    case _ =>
      var (h, st) := StudioApply(s.host, s.studios[a.p], a);
      s.(host := h, studios := s.studios[a.p := st])
  }

  // --- runs -------------------------------------------------------------------

  ghost predicate Runs(s: Sys, trace: seq<Action>)
    decreases |trace|
  {
    trace == [] || (Enabled(s, trace[0]) && Runs(Apply(s, trace[0]), trace[1..]))
  }

  ghost function After(s: Sys, trace: seq<Action>): Sys
    requires Runs(s, trace)
    decreases |trace|
  {
    if trace == [] then s else After(Apply(s, trace[0]), trace[1..])
  }

  ghost predicate Reachable(s: Sys) {
    exists trace :: Runs(Init, trace) && After(Init, trace) == s
  }
}
