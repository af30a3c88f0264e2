/**
 Who may send on a device's WebSocket: any number of server processes with their own
 registries and pending attempts, one durable owner and one lock for the device.
 */
module SocketOwnership {
  import opened Results

  // --- state --------------------------------------------------------------------------

  /** The durable row of the device: its session, and the connection that owns delivery. */
  datatype Device = Device(session: nat, candidate: bool, owner: Option<nat>)

  /** One connection attempt: the process that began it and the session of its ticket. */
  datatype Attempt = Attempt(process: nat, session: nat)

  datatype Phase =
    | Starting        // begun, not yet at the lock
    | Installing      // locked, still the newest attempt of its process
    | Activated       // locked, durable owner
    | Greeting        // locked, in the registry, sending its first events
    | Undoing         // locked, a first event failed
    | Live            // waiting for the peer
    | Checking        // locked, received something
    | Leaving         // broken or superseded
    | Evicting        // out of the registry, waiting for the lock
    | Clearing        // locked, clearing the durable owner
    | Fanned          // a delivery, waiting for the lock
    | Admitted        // a delivery, locked, still in the registry
    | Sending         // a delivery, locked, still the durable owner
    | Dropping        // a delivery, locked, taken out of the registry

  datatype Task = Task(process: nat, attempt: nat, delivery: bool, phase: Phase)

  datatype State = State(
    device: Device,
    lock: Option<nat>,             // the task that holds the lock of the device
    tasks: map<nat, Task>,
    registry: map<nat, nat>,       // by process: the connection that is delivered to
    pending: map<nat, nat>,        // by process: the newest attempt
    attempts: seq<Attempt>,
    activated: seq<nat>)           // the attempts that became durable owner, in order

  predicate Locked(phase: Phase) {
    || phase.Installing? || phase.Activated? || phase.Greeting? || phase.Undoing? || phase.Checking?
    || phase.Clearing? || phase.Admitted? || phase.Sending? || phase.Dropping?
  }

  // --- the storage interface ------------------------------------------------------------

  /** `activate_websocket_connection` finds its row. */
  predicate MayActivate(d: Device, session: nat) { d.session == session && !d.candidate }

  /** `is_websocket_connection_current` */
  predicate Current(d: Device, session: nat, a: nat) { d.session == session && d.owner == Some(a) && !d.candidate }

  /** `clear_websocket_connection` compares before it clears. */
  function Cleared(d: Device, session: nat, a: nat): Device {
    if d.session == session && d.owner == Some(a) then d.(owner := None) else d
  }

  // --- what one step of a task does, seen from its process --------------------------------

  datatype Outcome = Accepted | Failed | CommittedThenFailed

  datatype Move =
    | TakeInstall | Activate(outcome: Outcome) | Register | Greet | GreetDone | GreetFail | Undo(ok: bool)
    | Receive | Check | Break | Evict | TakeClear | Clear(ok: bool)
    | TakeDelivery | Admit | Send(ok: bool) | Drop | DeliveryError

  // What a task can see and change: `entry` and `newest` are those of its own process.
  datatype View = View(device: Device, locked: bool, entry: Option<nat>, newest: Option<nat>, activated: seq<nat>)

  datatype Result = Result(view: View, next: Option<Phase>)

  predicate Fits(v: View, phase: Phase, m: Move) {
    match m
    case TakeInstall => phase == Starting && !v.locked
    case Activate(_) => phase == Installing
    case Register => phase == Activated
    case Greet => phase == Greeting
    case GreetDone => phase == Greeting
    case GreetFail => phase == Greeting
    case Undo(_) => phase == Undoing
    case Receive => phase == Live && !v.locked
    case Check => phase == Checking
    case Break => phase == Starting || phase == Live || phase == Checking
    case Evict => phase == Leaving
    case TakeClear => phase == Evicting && !v.locked
    case Clear(_) => phase == Clearing
    case TakeDelivery => phase == Fanned && !v.locked
    case Admit => phase == Admitted
    case Send(_) => phase == Sending
    case Drop => phase == Dropping
    case DeliveryError => phase == Fanned || phase == Admitted || phase == Sending || phase == Dropping
  }

  function Popped(entry: Option<nat>, a: nat): Option<nat> { if entry == Some(a) then None else entry }

  // Going on in a phase, which holds the lock or not; ending forgets the attempt.
  function Go(v: View, phase: Phase): Result { Result(v.(locked := Locked(phase)), Some(phase)) }

  function End(v: View, a: nat): Result { Result(v.(locked := false, newest := Popped(v.newest, a)), None) }

  function Step(v: View, a: nat, session: nat, phase: Phase, m: Move): Result {
    match m
    case TakeInstall =>
      if v.newest != Some(a) then End(v, a) else Go(v.(newest := None), Installing)
    case Activate(outcome) =>
      var committed := v.(device := v.device.(owner := Some(a)), activated := v.activated + [a]);
      if outcome.Failed? || !MayActivate(v.device, session) then End(v, a)
      else if outcome.Accepted? then Go(committed, Activated)
      else End(committed, a)
    case Register => Go(v.(entry := Some(a)), Greeting)
    case Greet => Go(v, Greeting)
    case GreetDone => Go(v, Live)
    case GreetFail => Go(v, Undoing)
    case Undo(ok) =>
      if ok then End(v.(device := Cleared(v.device, session, a), entry := Popped(v.entry, a)), a) else End(v, a)
    case Receive => Go(v, Checking)
    case Check => if Current(v.device, session, a) then Go(v, Live) else Go(v, Leaving)
    case Break => if Locked(phase) then Go(v, Leaving) else Result(v, Some(Leaving))
    case Evict => Result(v.(entry := Popped(v.entry, a)), Some(Evicting))
    case TakeClear => Go(v, Clearing)
    case Clear(ok) => End(if ok then v.(device := Cleared(v.device, session, a)) else v, a)
    case TakeDelivery => if v.entry != Some(a) then Result(v, None) else Go(v, Admitted)
    case Admit =>
      if Current(v.device, session, a) then Go(v, Sending)
      else if v.entry == Some(a) then Go(v.(entry := None), Dropping)
      else Result(v.(locked := false), None)
    case Send(ok) =>
      if !ok && v.entry == Some(a) then Go(v.(entry := None), Dropping) else Result(v.(locked := false), None)
    case Drop => Result(v.(locked := false, device := Cleared(v.device, session, a)), None)
    case DeliveryError => Result(v.(locked := v.locked && !Locked(phase), entry := Popped(v.entry, a)), Some(Evicting))
  }

  /** The move puts an event on the socket of its attempt. */
  predicate Sends(m: Move) { m.Greet? || m.Send? }

  // --- the whole system ------------------------------------------------------------------

  datatype Action =
    | Begin(t: nat, process: nat, session: nat)       // a ticket was consumed
    | FanOut(t: nat, process: nat)                    // a delivery to the registered connection
    | Move(t: nat, m: Move)
    | Crash(process: nat)
    | Cutover                                         // another credential takes over
    | Candidate(waiting: bool)                        // one is finalized, or no longer

  function At(m: map<nat, nat>, p: nat): Option<nat> { if p in m then Some(m[p]) else None }

  function Put(m: map<nat, nat>, p: nat, v: Option<nat>): (r: map<nat, nat>)
    ensures forall q :: At(r, q) == if q == p then v else At(m, q)
  {
    if v.Some? then m[p := v.value] else m - {p}
  }

  function ViewOf(s: State, p: nat): View {
    View(s.device, s.lock.Some?, At(s.registry, p), At(s.pending, p), s.activated)
  }

  predicate Enabled(s: State, act: Action) {
    match act
    case Begin(t, _, session) => t !in s.tasks && session <= s.device.session
    case FanOut(t, p) => t !in s.tasks && p in s.registry
    case Move(t, m) => t in s.tasks && Fits(ViewOf(s, s.tasks[t].process), s.tasks[t].phase, m)
    case Crash(_) => true
    case Cutover => s.lock.None?
    case Candidate(_) => true
  }

  function SessionOf(s: State, a: nat): nat { if a < |s.attempts| then s.attempts[a].session else 0 }

  function AfterMove(s: State, t: nat, m: Move): State
    requires t in s.tasks
  {
    var task := s.tasks[t];
    var r := Step(ViewOf(s, task.process), task.attempt, SessionOf(s, task.attempt), task.phase, m);
    State(
      r.view.device,
      if r.view.locked == s.lock.Some? then s.lock else if r.view.locked then Some(t) else None,
      if r.next.Some? then s.tasks[t := task.(phase := r.next.value)] else s.tasks - {t},
      Put(s.registry, task.process, r.view.entry),
      Put(s.pending, task.process, r.view.newest),
      s.attempts,
      r.view.activated)
  }

  function Survivors(s: State, p: nat): map<nat, Task> {
    map t | t in s.tasks && s.tasks[t].process != p :: s.tasks[t]
  }

  function Apply(s: State, act: Action): State
    requires Enabled(s, act)
  {
    match act
    case Begin(t, p, session) =>
      var a := |s.attempts|;
      s.(tasks := s.tasks[t := Task(p, a, false, Starting)], pending := s.pending[p := a],
         attempts := s.attempts + [Attempt(p, session)])
    case FanOut(t, p) => s.(tasks := s.tasks[t := Task(p, s.registry[p], true, Fanned)])
    case Move(t, m) => AfterMove(s, t, m)
    case Crash(p) =>
      var tasks := Survivors(s, p);
      s.(tasks := tasks, registry := s.registry - {p}, pending := s.pending - {p},
         lock := if s.lock.Some? && s.lock.value in tasks then s.lock else None)
    case Cutover => s.(device := s.device.(session := s.device.session + 1, owner := None))
    case Candidate(waiting) => s.(device := s.device.(candidate := waiting))
  }

  ghost predicate Init(s: State) {
    && s.device.owner == None && s.lock == None && s.tasks == map[]
    && s.registry == map[] && s.pending == map[] && s.attempts == [] && s.activated == []
  }

  ghost predicate Runs(s: State, acts: seq<Action>)
    decreases |acts|
  {
    acts == [] || (Enabled(s, acts[0]) && Runs(Apply(s, acts[0]), acts[1..]))
  }

  ghost function After(s: State, acts: seq<Action>): State
    requires Runs(s, acts)
    decreases |acts|
  {
    if acts == [] then s else After(Apply(s, acts[0]), acts[1..])
  }
}
