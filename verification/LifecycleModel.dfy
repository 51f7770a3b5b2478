/** The rows of one job: its turns, its user message and its pending requests, and every
    transaction that changes them. A turn belongs to one job. */
module LifecycleModel {
  import opened Options

  type AgentId = nat
  type TurnId = nat
  type MessageId = nat
  type PendingId = nat
  type CallId = nat

  datatype JobStatus = JobQueued | JobStarted | JobWaiting | JobDone | JobFailed | JobCancelled

  datatype TurnStatus = Queued | Running | Waiting | Done | Failed | Cancelled | Interrupted

  /** A stored conversation, by the tool calls on its latest model response, if it has one. */
  datatype Messages = NoResponse | Response(calls: set<CallId>)

  datatype Turn = Turn(agent: AgentId, status: TurnStatus, result: Option<Messages>)

  datatype UserMessage = UserMessage(turn: TurnId, agent: AgentId, time: nat)

  datatype Kind = Approval | Question(blocking: bool)

  datatype Pending = Pending(turn: TurnId, kind: Kind, call: Option<CallId>, open: bool, approved: bool)

  datatype Rows = Rows(status: JobStatus, agent: AgentId, turns: map<TurnId, Turn>,
                       user: map<MessageId, UserMessage>, pendings: map<PendingId, Pending>)

  // Reading the rows.

  predicate Open(status: TurnStatus) {
    status.Queued? || status.Running? || status.Waiting?
  }

  predicate Live(status: TurnStatus) {
    status.Running? || status.Waiting?
  }

  predicate HasStatus(rows: Rows, t: TurnId, status: TurnStatus) {
    t in rows.turns && rows.turns[t].status == status
  }

  predicate OpenTurn(rows: Rows, t: TurnId) {
    t in rows.turns && Open(rows.turns[t].status)
  }

  predicate LiveTurn(rows: Rows, t: TurnId) {
    t in rows.turns && Live(rows.turns[t].status)
  }

  predicate HasUser(rows: Rows, t: TurnId) {
    exists m :: m in rows.user && rows.user[m].turn == t
  }

  predicate Blocks(kind: Kind) {
    !kind.Question? || kind.blocking
  }

  predicate OpenFor(p: Pending, t: TurnId) {
    p.open && p.turn == t
  }

  predicate HasOpen(rows: Rows, t: TurnId) {
    exists p :: p in rows.pendings && OpenFor(rows.pendings[p], t)
  }

  /** A request that holds the turn is unanswered. */
  predicate HasWaiting(rows: Rows, t: TurnId) {
    exists p :: p in rows.pendings && OpenFor(rows.pendings[p], t) && Blocks(rows.pendings[p].kind)
  }

  function LatestCalls(result: Option<Messages>): Option<set<CallId>> {
    if result.None? || result.value.NoResponse? then None else Some(result.value.calls)
  }

  /** The request is one of the calls of the latest response, or there is no response. */
  predicate OnLatest(p: Pending, result: Option<Messages>) {
    LatestCalls(result).Some? ==> p.call.Some? && p.call.value in LatestCalls(result).value
  }

  predicate HasDeferredApproval(rows: Rows, t: TurnId)
    requires t in rows.turns
  {
    exists p :: p in rows.pendings && rows.pendings[p].turn == t && rows.pendings[p].kind.Approval? &&
                OnLatest(rows.pendings[p], rows.turns[t].result)
  }

  // The transactions.

  function SetTurn(rows: Rows, t: TurnId, status: TurnStatus, result: Option<Messages>): Rows
    requires t in rows.turns
  {
    rows.(turns := rows.turns[t := rows.turns[t].(status := status, result := result)])
  }

  /** The user's message, stored with the turn unless the turn has one already. */
  function WithUser(rows: Rows, t: TurnId, m: MessageId, agent: AgentId, time: nat): Rows {
    if HasUser(rows, t) then rows else rows.(user := rows.user[m := UserMessage(t, agent, time)])
  }

  function Settle(p: Pending, t: TurnId): Pending {
    if OpenFor(p, t) then p.(open := false, approved := false) else p
  }

  function Resolved(rows: Rows, t: TurnId): Rows {
    rows.(pendings := map p | p in rows.pendings :: Settle(rows.pendings[p], t))
  }

  function Attach(rows: Rows, t: TurnId, m: MessageId, now: nat, consumed: bool): Rows {
    rows.(turns := rows.turns[t := Turn(rows.agent, if consumed then Done else Queued, None)],
          user := rows.user[m := UserMessage(t, rows.agent, now)])
  }

  /** A claimed job runs its queued turn on the job's lane, or a new turn. */
  function Register(rows: Rows, t: TurnId): Rows {
    if t in rows.turns then
      rows.(turns := rows.turns[t := Turn(rows.agent, Running, rows.turns[t].result)],
            user := map m | m in rows.user ::
                      if rows.user[m].turn == t then rows.user[m].(agent := rows.agent) else rows.user[m])
    else rows.(turns := rows.turns[t := Turn(rows.agent, Running, None)])
  }

  function Ask(rows: Rows, t: TurnId, p: PendingId, blocking: bool): Rows
    requires t in rows.turns
  {
    var asked := rows.(pendings := rows.pendings[p := Pending(t, Question(blocking), None, true, false)]);
    if blocking then SetTurn(asked, t, Waiting, rows.turns[t].result) else asked
  }

  function PersistDone(rows: Rows, t: TurnId, m: MessageId, time: nat, result: Messages): Rows
    requires t in rows.turns
  {
    if rows.turns[t].status.Cancelled? then rows
    else WithUser(SetTurn(rows, t, Done, Some(result)), t, m, rows.turns[t].agent, time).(status := JobDone)
  }

  function PersistWaiting(rows: Rows, t: TurnId, m: MessageId, time: nat, result: Messages,
                          approvals: map<PendingId, CallId>): Rows
    requires t in rows.turns
  {
    if rows.turns[t].status.Cancelled? then rows
    else
      WithUser(SetTurn(rows, t, Waiting, Some(result)), t, m, rows.turns[t].agent, time)
      .(pendings := rows.pendings + map p | p in approvals :: Pending(t, Approval, Some(approvals[p]), true, false))
  }

  function PersistCancelled(rows: Rows, t: TurnId, m: MessageId, time: nat): Rows
    requires t in rows.turns
  {
    if rows.turns[t].status.Cancelled? then rows
    else
      Resolved(WithUser(SetTurn(rows, t, Cancelled, None), t, m, rows.turns[t].agent, time).(status := JobCancelled), t)
  }

  function CancelRunning(rows: Rows, t: TurnId, m: MessageId, time: nat): Rows
    requires t in rows.turns
  {
    if !rows.turns[t].status.Running? then rows
    else
      Resolved(WithUser(SetTurn(rows, t, Cancelled, None), t, m, rows.turns[t].agent, time).(status := JobCancelled), t)
  }

  function CancelWaiting(rows: Rows, t: TurnId): Rows
    requires t in rows.turns
  {
    if !rows.turns[t].status.Waiting? then rows
    else Resolved(SetTurn(rows, t, Cancelled, None).(status := JobCancelled), t)
  }

  function CancelQueued(rows: Rows, t: TurnId): Rows
    requires t in rows.turns
  {
    if !rows.turns[t].status.Queued? then rows
    else SetTurn(rows, t, Cancelled, rows.turns[t].result).(status := JobCancelled)
  }

  function FailedJob(status: JobStatus): JobStatus {
    if status.JobQueued? || status.JobStarted? then JobFailed else status
  }

  /** Records a failure for the turn it names, or for the job when none is named. */
  function Fail(rows: Rows, t: Option<TurnId>, m: MessageId, time: nat): Rows {
    if t.None? || t.value !in rows.turns then rows.(status := FailedJob(rows.status))
    else
      var status := rows.turns[t.value].status;
      if !Open(status) || (status.Waiting? && HasWaiting(rows, t.value)) then rows
      else if status.Queued? then rows.(status := FailedJob(rows.status))
      else
        Resolved(WithUser(SetTurn(rows, t.value, Failed, None), t.value, m, rows.turns[t.value].agent, time)
                 .(status := FailedJob(rows.status)), t.value)
  }

  function Answer(rows: Rows, p: PendingId, approved: bool): Rows
    requires p in rows.pendings
  {
    rows.(pendings := rows.pendings[p := rows.pendings[p].(open := false, approved := approved)])
  }

  /** A turn paused on questions that are answered, with nothing to resume. */
  predicate Closable(rows: Rows, agent: AgentId, t: TurnId)
    requires t in rows.turns
  {
    && rows.turns[t].agent == agent && rows.turns[t].status.Waiting?
    && !HasDeferredApproval(rows, t) && !HasWaiting(rows, t)
  }

  function CloseQuestions(rows: Rows, agent: AgentId): Rows {
    var closes := exists t :: t in rows.turns && Closable(rows, agent, t);
    rows.(turns := map t | t in rows.turns ::
                     if Closable(rows, agent, t) then rows.turns[t].(status := Done) else rows.turns[t],
          status := if closes && (rows.status.JobQueued? || rows.status.JobStarted?) then JobDone else rows.status)
  }

  function Resume(rows: Rows, t: TurnId): Rows
    requires t in rows.turns
  {
    if rows.turns[t].status.Waiting? then SetTurn(rows, t, Running, rows.turns[t].result) else rows
  }

  /** A message is carried along when its turn is queued or cancelled on the job's lane. */
  predicate Carried(rows: Rows, t: TurnId) {
    && t in rows.turns && rows.turns[t].agent == rows.agent
    && (rows.turns[t].status.Queued? || rows.turns[t].status.Cancelled?)
  }

  predicate CarriedCancelled(rows: Rows, t: TurnId) {
    Carried(rows, t) && rows.turns[t].status.Cancelled?
  }

  function Park(rows: Rows, agent: AgentId, retry: TurnId): Rows {
    var moved := map t | t in rows.turns ::
                   if Carried(rows, t) && rows.turns[t].status.Queued? then rows.turns[t].(agent := agent)
                   else rows.turns[t];
    var retried := exists m :: m in rows.user && CarriedCancelled(rows, rows.user[m].turn);
    Rows(JobQueued, agent,
         if retried then moved[retry := Turn(agent, Queued, None)] else moved,
         map m | m in rows.user :: ParkMessage(rows, rows.user[m], agent, retry),
         rows.pendings)
  }

  function ParkMessage(rows: Rows, m: UserMessage, agent: AgentId, retry: TurnId): UserMessage {
    if CarriedCancelled(rows, m.turn) then UserMessage(retry, agent, m.time)
    else if Carried(rows, m.turn) then m.(agent := agent)
    else m
  }

  // The startup sweep, for one job.

  predicate SavedFor(p: Pending, t: TurnId, result: Option<Messages>) {
    p.turn == t && p.call.Some? && !p.open && OnLatest(p, result)
  }

  predicate Ready(rows: Rows, t: TurnId) {
    && LiveTurn(rows, t) && rows.turns[t].result.Some?
    && exists p :: p in rows.pendings && SavedFor(rows.pendings[p], t, rows.turns[t].result)
  }

  predicate StillAsked(rows: Rows) {
    exists t :: t in rows.turns && rows.turns[t].status.Waiting? && HasOpen(rows, t)
  }

  /** The turns to resume from their saved approvals. */
  function Answered(rows: Rows): set<TurnId> {
    if StillAsked(rows) then {} else set t | t in rows.turns && Ready(rows, t)
  }

  predicate Stalled(rows: Rows, t: TurnId) {
    t in rows.turns && (Live(rows.turns[t].status) || HasOpen(rows, t))
  }

  function Interrupt(rows: Rows): Rows {
    rows.(status := JobCancelled,
          turns := map t | t in rows.turns ::
                     if Stalled(rows, t) then rows.turns[t].(status := Interrupted) else rows.turns[t],
          pendings := map p | p in rows.pendings ::
                        if rows.pendings[p].open && Stalled(rows, rows.pendings[p].turn)
                        then rows.pendings[p].(open := false, approved := false) else rows.pendings[p])
  }

  function CloseCrashed(rows: Rows): Rows {
    rows.(turns := map t | t in rows.turns ::
                     if rows.turns[t].status.Running? then rows.turns[t].(status := Failed) else rows.turns[t])
  }

  /** The message of a failed attempt goes to a new queued turn, with its id and time; the turn
      is on the lane of one of the failed attempts. */
  function PreserveMessage(rows: Rows, retry: TurnId, source: TurnId): Rows {
    var failed := exists m :: m in rows.user && HasStatus(rows, rows.user[m].turn, Failed);
    if !failed then rows
    else
      var agent := if source in rows.turns then rows.turns[source].agent else rows.agent;
      rows.(turns := rows.turns[retry := Turn(agent, Queued, None)],
            user := map m | m in rows.user ::
                      if HasStatus(rows, rows.user[m].turn, Failed) then rows.user[m].(turn := retry) else rows.user[m])
  }

  datatype Swept = Swept(rows: Rows, resume: set<TurnId>)

  function SweepJob(rows: Rows, claude: bool, retry: TurnId, source: TurnId): Swept {
    if !rows.status.JobStarted? then Swept(rows, {})
    else if claude && exists t :: t in rows.turns && Stalled(rows, t) then Swept(Interrupt(rows), {})
    else if Answered(rows) != {} then Swept(rows, Answered(rows))
    else if exists t :: t in rows.turns && rows.turns[t].status.Waiting? then Swept(rows, {})
    else if rows.turns != map[] && forall t :: t in rows.turns ==> rows.turns[t].status.Cancelled? then
      Swept(rows.(status := JobCancelled), {})
    else if exists t :: t in rows.turns && rows.turns[t].result.Some? then Swept(rows, {})
    else Swept(PreserveMessage(CloseCrashed(rows), retry, source).(status := JobQueued), {})
  }
}
