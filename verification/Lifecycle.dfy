/** One job's rows under every interleaving of its transactions with the attempts in memory. */
module Lifecycle {
  import opened LifecycleModel
  import opened Options

  /** `claiming`: the worker holds the job's lock between marking it started and registering its
      turn. `attempts`: turns whose run is still in memory, however old. `failing`: runs that
      raised and have yet to record it, by turn, or by job when no turn is named. */
  datatype World = World(rows: Rows, claiming: bool, attempts: set<TurnId>, failing: set<Option<TurnId>>)

  datatype Step =
    | Attach(t: TurnId, m: MessageId, time: nat, consumed: bool)
    | MarkStarted(lane: AgentId)
    | Register(t: TurnId)
    | Resume(t: TurnId)
    | Ask(t: TurnId, p: PendingId, blocking: bool)
    | PersistDone(t: TurnId, m: MessageId, time: nat, result: Messages)
    | PersistWaiting(t: TurnId, m: MessageId, time: nat, result: Messages, approvals: map<PendingId, CallId>)
    | PersistCancelled(t: TurnId, m: MessageId, time: nat)
    | Raise(t: TurnId, resumed: bool)
    | RaiseClaim
    | RecordFailure(named: Option<TurnId>, found: Option<TurnId>, m: MessageId, time: nat)
    | Answer(p: PendingId, approved: bool)
    | CloseQuestions(lane: AgentId)
    | CancelQueued(t: TurnId)
    | CancelWaiting(t: TurnId)
    | CancelRunning(t: TurnId, m: MessageId, time: nat)
    | DropQueued
    | Reroute(lane: AgentId, retry: TurnId, live: Option<TurnId>, m: MessageId, time: nat)
    | Crash
    | Sweep(claude: bool, retry: TurnId, source: TurnId)

  function QueuedTurns(rows: Rows): set<TurnId> {
    set t | t in rows.turns && rows.turns[t].status.Queued?
  }

  predicate NewMessage(rows: Rows, m: MessageId) {
    m !in rows.user
  }

  /** What a failure recorded by job finds: a live turn on the job's lane, if there is one. */
  predicate Finds(rows: Rows, named: Option<TurnId>, found: Option<TurnId>) {
    if named.Some? then found == named
    else if found.Some? then LiveTurn(rows, found.value) && rows.turns[found.value].agent == rows.agent
    else forall t :: t in rows.turns && rows.turns[t].agent == rows.agent ==> !Live(rows.turns[t].status)
  }

  /** The turn that a reroute interrupts: a live one, if there is one. */
  predicate Interrupts(rows: Rows, live: Option<TurnId>) {
    if live.Some? then LiveTurn(rows, live.value)
    else forall t :: t in rows.turns ==> !Live(rows.turns[t].status)
  }

  predicate Enabled(w: World, step: Step) {
    var rows := w.rows;
    match step
    case Attach(t, m, _, consumed) => t !in rows.turns && NewMessage(rows, m) && (consumed ==> rows.status.JobDone?)
    case MarkStarted(lane) => !w.claiming && rows.status.JobQueued? && rows.agent == lane
    case Register(t) =>
      w.claiming && if QueuedTurns(rows) == {} then t !in rows.turns else t in QueuedTurns(rows)
    case Resume(t) => !w.claiming && LiveTurn(rows, t)
    case Ask(t, p, _) => t in w.attempts && t in rows.turns && p !in rows.pendings
    case PersistDone(t, m, _, _) => t in w.attempts && t in rows.turns && NewMessage(rows, m) && !HasWaiting(rows, t)
    case PersistWaiting(t, m, _, _, approvals) =>
      && t in w.attempts && t in rows.turns && NewMessage(rows, m) && approvals.Keys !! rows.pendings.Keys
      && (approvals != map[] || HasWaiting(rows, t))
    case PersistCancelled(t, m, _) => t in w.attempts && t in rows.turns && NewMessage(rows, m)
    case Raise(t, _) => t in w.attempts
    case RaiseClaim => w.claiming
    case RecordFailure(named, found, m, _) => named in w.failing && Finds(rows, named, found) && NewMessage(rows, m)
    case Answer(p, _) => p in rows.pendings && rows.pendings[p].open
    case CloseQuestions(_) => true
    case CancelQueued(t) => !w.claiming && t in rows.turns
    case CancelWaiting(t) => !w.claiming && t in rows.turns
    case CancelRunning(t, m, _) => !w.claiming && t in rows.turns && NewMessage(rows, m)
    case DropQueued => !w.claiming && rows.status.JobQueued?
    case Reroute(_, retry, live, m, _) =>
      && !w.claiming && !rows.status.JobDone? && !rows.status.JobFailed? && !rows.status.JobCancelled?
      && Interrupts(rows, live) && retry !in rows.turns && NewMessage(rows, m)
    case Crash => true
    case Sweep(_, retry, source) =>
      !w.claiming && w.attempts == {} && w.failing == {} && retry !in rows.turns
      && (source in rows.turns ==> HasStatus(CloseCrashed(rows), source, Failed))
  }

  /** A reroute cancels the live turn, whatever it waits for, and then moves the job. */
  function Stopped(rows: Rows, live: Option<TurnId>, m: MessageId, time: nat): Rows
    requires live.Some? ==> live.value in rows.turns
  {
    if live.None? then rows
    else LifecycleModel.CancelRunning(LifecycleModel.CancelWaiting(rows, live.value), live.value, m, time)
  }

  function Do(w: World, step: Step): World
    requires Enabled(w, step)
  {
    var rows := w.rows;
    match step
    case Attach(t, m, time, consumed) => w.(rows := LifecycleModel.Attach(rows, t, m, time, consumed))
    case MarkStarted(_) => w.(rows := rows.(status := JobStarted), claiming := true)
    case Register(t) => w.(rows := LifecycleModel.Register(rows, t), claiming := false, attempts := w.attempts + {t})
    case Resume(t) => w.(rows := LifecycleModel.Resume(rows, t), attempts := w.attempts + {t})
    case Ask(t, p, blocking) => w.(rows := LifecycleModel.Ask(rows, t, p, blocking))
    case PersistDone(t, m, time, result) =>
      w.(rows := LifecycleModel.PersistDone(rows, t, m, time, result), attempts := w.attempts - {t})
    case PersistWaiting(t, m, time, result, approvals) =>
      w.(rows := LifecycleModel.PersistWaiting(rows, t, m, time, result, approvals), attempts := w.attempts - {t})
    case PersistCancelled(t, m, time) =>
      w.(rows := LifecycleModel.PersistCancelled(rows, t, m, time), attempts := w.attempts - {t})
    case Raise(t, resumed) =>
      w.(attempts := w.attempts - {t}, failing := w.failing + {if resumed then Some(t) else None})
    case RaiseClaim => w.(claiming := false, failing := w.failing + {None})
    case RecordFailure(named, found, m, time) =>
      w.(rows := Fail(rows, found, m, time), failing := w.failing - {named})
    case Answer(p, approved) => w.(rows := LifecycleModel.Answer(rows, p, approved))
    case CloseQuestions(lane) => w.(rows := LifecycleModel.CloseQuestions(rows, lane))
    case CancelQueued(t) => w.(rows := LifecycleModel.CancelQueued(rows, t))
    case CancelWaiting(t) => w.(rows := LifecycleModel.CancelWaiting(rows, t))
    case CancelRunning(t, m, time) => w.(rows := LifecycleModel.CancelRunning(rows, t, m, time))
    case DropQueued => w.(rows := rows.(status := JobCancelled))
    case Reroute(lane, retry, live, m, time) => w.(rows := Park(Stopped(rows, live, m, time), lane, retry))
    case Crash => World(rows, false, {}, {})
    case Sweep(claude, retry, source) => w.(rows := SweepJob(rows, claude, retry, source).rows)
  }
}
