/** The startup sweep over all jobs and agents. */
module RecoveryModel {
  import opened LifecycleModel
  import opened Lifecycle
  import opened LifecycleSafety
  import opened LifecycleResults
  import LifecycleOutcomes

  type JobId = nat

  datatype AgentStatus = Idle | AgentRunning | AgentWaiting | AgentDone

  datatype Agent = Agent(status: AgentStatus, claude: bool)

  datatype Host = Host(jobs: map<JobId, Rows>, agents: map<AgentId, Agent>)

  /** The ids a sweep draws for a job's retry, and the failed turn it copies. */
  datatype Ids = Ids(retry: map<JobId, TurnId>, source: map<JobId, TurnId>)

  predicate LiveOnLane(rows: Rows, a: AgentId) {
    exists t :: t in rows.turns && rows.turns[t].agent == a && Live(rows.turns[t].status)
  }

  predicate LiveOn(jobs: map<JobId, Rows>, a: AgentId) {
    exists j :: j in jobs && LiveOnLane(jobs[j], a)
  }

  predicate IsClaude(host: Host, a: AgentId) {
    a in host.agents && host.agents[a].claude
  }

  function SweptJob(host: Host, ids: Ids, j: JobId): Swept
    requires j in host.jobs && j in ids.retry && j in ids.source
  {
    SweepJob(host.jobs[j], IsClaude(host, host.jobs[j].agent), ids.retry[j], ids.source[j])
  }

  predicate Interrupts(host: Host, j: JobId)
    requires j in host.jobs
  {
    && host.jobs[j].status.JobStarted? && IsClaude(host, host.jobs[j].agent)
    && exists t :: t in host.jobs[j].turns && Stalled(host.jobs[j], t)
  }

  function SetIdle(agents: map<AgentId, Agent>, a: AgentId): map<AgentId, Agent> {
    if a in agents then agents[a := agents[a].(status := Idle)] else agents
  }

  /** One job of the sweep. Its lane goes idle when the job left it and nothing on it is live. */
  function SweepOne(host: Host, ids: Ids, j: JobId): Host
    requires j in host.jobs && j in ids.retry && j in ids.source
  {
    var before, after := host.jobs[j], SweptJob(host, ids, j).rows;
    var jobs := host.jobs[j := after];
    var a := before.agent;
    var left := after.status != before.status;
    var idle := left && a in host.agents &&
                (Interrupts(host, j) || (host.agents[a].status.AgentRunning? && !LiveOn(jobs, a)));
    Host(jobs, if idle then SetIdle(host.agents, a) else host.agents)
  }

  function SweepAll(host: Host, ids: Ids, order: seq<JobId>): (r: Host)
    requires forall j :: j in order ==> j in host.jobs && j in ids.retry && j in ids.source
    ensures r.jobs.Keys == host.jobs.Keys
    decreases |order|
  {
    if order == [] then host else SweepOne(SweepAll(host, ids, order[..|order| - 1]), ids, order[|order| - 1])
  }

  function Kick(host: Host): set<AgentId> {
    set j | j in host.jobs && host.jobs[j].status.JobQueued? :: host.jobs[j].agent
  }

  ghost predicate Distinct(order: seq<JobId>) {
    forall i, k :: 0 <= i < k < |order| ==> order[i] != order[k]
  }

  ghost predicate Listed(host: Host, ids: Ids, order: seq<JobId>) {
    forall j :: j in order ==> j in host.jobs && j in ids.retry && j in ids.source
  }

  // What the whole sweep does to one job.

  lemma {:induction false} SweepAllAt(host: Host, ids: Ids, order: seq<JobId>, j: JobId)
    requires Listed(host, ids, order) && Distinct(order) && j in host.jobs
    ensures SweepAll(host, ids, order).jobs.Keys == host.jobs.Keys
    ensures j !in order ==> SweepAll(host, ids, order).jobs[j] == host.jobs[j]
    ensures j in order ==> SweepAll(host, ids, order).jobs[j] == SweptJob(host, ids, j).rows
    ensures forall a :: IsClaude(SweepAll(host, ids, order), a) == IsClaude(host, a)
    decreases |order|
  {
    hide SweepOne, SweptJob, Distinct, IsClaude;
    if order != [] {
      var front, last := order[..|order| - 1], order[|order| - 1];
      LastIsNew(order);
      SweepAllAt(host, ids, front, j);
      SweepAllAt(host, ids, front, last);
      SweepOneAt(host, SweepAll(host, ids, front), ids, last, j);
    }
  }

  lemma LastIsNew(order: seq<JobId>)
    requires order != [] && Distinct(order)
    ensures var front, last := order[..|order| - 1], order[|order| - 1];
            && Distinct(front) && last !in front && last in order
            && forall j :: j in order <==> j in front || j == last
  {
  }

  lemma SweepOneAt(host: Host, mid: Host, ids: Ids, last: JobId, j: JobId)
    requires last in host.jobs && last in mid.jobs && last in ids.retry && last in ids.source && j in mid.jobs
    requires mid.jobs[last] == host.jobs[last] && forall a :: IsClaude(mid, a) == IsClaude(host, a)
    ensures var r := SweepOne(mid, ids, last);
            && r.jobs.Keys == mid.jobs.Keys
            && r.jobs[j] == (if j == last then SweptJob(host, ids, last).rows else mid.jobs[j])
            && forall a :: IsClaude(r, a) == IsClaude(mid, a)
  {
    hide SweepJob, LiveOn, Interrupts;
  }

  /** The turns a sweep hands back to be resumed. */
  function ResumeOf(host: Host, ids: Ids, order: seq<JobId>): set<(JobId, TurnId)>
    requires forall j :: j in order ==> j in host.jobs && j in ids.retry && j in ids.source
  {
    set j, t | j in order && t in SweptJob(host, ids, j).resume :: (j, t)
  }

  lemma {:induction false} SweepAllSame(host: Host, ids: Ids, order: seq<JobId>)
    requires Listed(host, ids, order)
    requires forall j :: j in order ==> SweptJob(host, ids, j).rows == host.jobs[j]
    ensures SweepAll(host, ids, order) == host
    decreases |order|
  {
    hide SweepJob, LiveOn, Interrupts;
    if order != [] {
      var front, last := order[..|order| - 1], order[|order| - 1];
      SweepAllSame(host, ids, front);
      assert host.jobs[last := host.jobs[last]] == host.jobs;
      assert SweepOne(host, ids, last) == host;
    }
  }

  /** A second sweep, with new ids and in any order, changes no row of any job or agent, kicks the
      same lanes and resumes the same turns. */
  lemma SweepAgainIsIdle(host: Host, ids: Ids, order: seq<JobId>, ids': Ids, order': seq<JobId>)
    requires Listed(host, ids, order) && Distinct(order) && Listed(host, ids', order')
    requires forall j :: j in host.jobs ==> j in order
    requires forall j :: j in host.jobs ==> j in order'
    ensures Listed(SweepAll(host, ids, order), ids', order')
    ensures SweepAll(SweepAll(host, ids, order), ids', order') == SweepAll(host, ids, order)
    ensures Kick(SweepAll(SweepAll(host, ids, order), ids', order')) == Kick(SweepAll(host, ids, order))
    ensures ResumeOf(SweepAll(host, ids, order), ids', order') == ResumeOf(host, ids, order)
  {
    hide SweepJob, SweepAll;
    var once := SweepAll(host, ids, order);
    forall j | j in host.jobs
      ensures once.jobs.Keys == host.jobs.Keys
      ensures j in ids'.retry && j in ids'.source && SweptJob(once, ids', j) == SweptJob(host, ids, j)
      ensures once.jobs[j] == SweptJob(host, ids, j).rows
    {
      SweepAllAt(host, ids, order, j);
      SweepKeepsLane(host.jobs[j], IsClaude(host, host.jobs[j].agent), ids.retry[j], ids.source[j]);
      SweepTwice(host.jobs[j], IsClaude(host, host.jobs[j].agent), ids.retry[j], ids.source[j],
                 ids'.retry[j], ids'.source[j]);
    }
    if host.jobs == map[] {
      SweepNoJobs(host, ids, order);
      SweepNoJobs(host, ids', order');
    }
    SweepAllSame(once, ids', order');
  }

  lemma SweepKeepsLane(rows: Rows, claude: bool, retry: TurnId, source: TurnId)
    ensures SweepJob(rows, claude, retry, source).rows.agent == rows.agent
  {
  }

  // Lanes.

  /** Every live turn is on the lane of its job. */
  predicate OnLanes(host: Host) {
    forall j :: j in host.jobs ==> OnLane(host.jobs[j])
  }

  predicate OnLane(rows: Rows) {
    forall t :: t in rows.turns && Live(rows.turns[t].status) ==> rows.turns[t].agent == rows.agent
  }

  lemma SweepStaysOnLane(rows: Rows, claude: bool, retry: TurnId, source: TurnId, a: AgentId)
    requires OnLane(rows)
    ensures OnLane(SweepJob(rows, claude, retry, source).rows)
    ensures LiveOnLane(SweepJob(rows, claude, retry, source).rows, a) ==> LiveOnLane(rows, a)
    ensures a != rows.agent ==> !LiveOnLane(rows, a)
    ensures SweepJob(rows, claude, retry, source).rows.status == rows.status
            ==> SweepJob(rows, claude, retry, source).rows == rows
  {
    hide Answered, HasOpen;
  }

  predicate Left(host: Host, ids: Ids, j: JobId)
    requires j in host.jobs && j in ids.retry && j in ids.source
  {
    SweptJob(host, ids, j).rows.status != host.jobs[j].status
  }

  /** A lane that is marked running has something live on it. */
  predicate LaneFine(host: Host, a: AgentId) {
    a in host.agents && host.agents[a].status.AgentRunning? ==> LiveOn(host.jobs, a)
  }

  lemma LeavesThenToo(host: Host, mid: Host, ids: Ids, j: JobId)
    requires j in host.jobs && j in mid.jobs && j in ids.retry && j in ids.source && Left(host, ids, j)
    requires mid.jobs[j] == host.jobs[j] && forall a :: IsClaude(mid, a) == IsClaude(host, a)
    ensures Left(mid, ids, j)
  {
    hide SweepJob;
  }

  /** A lane that lost a crashed job is not left running with nothing live on it. */
  lemma {:induction false} LanesGoIdle(host: Host, ids: Ids, order: seq<JobId>, j: JobId)
    requires Listed(host, ids, order) && Distinct(order) && OnLanes(host)
    requires j in order && Left(host, ids, j)
    ensures LaneFine(SweepAll(host, ids, order), host.jobs[j].agent)
    decreases |order|
  {
    hide SweepOne, SweptJob, Left, LaneFine, IsClaude, OnLanes, Distinct;
    var front, last := order[..|order| - 1], order[|order| - 1];
    LastIsNew(order);
    var mid := SweepAll(host, ids, front);
    assert SweepAll(host, ids, order) == SweepOne(mid, ids, last);
    if j in front {
      LanesGoIdle(host, ids, front, j);
      StayOnLanes(host, ids, front);
      LaneAfterOne(mid, ids, last, host.jobs[j].agent);
    } else {
      SweepAllAt(host, ids, front, last);
      LeavesThenToo(host, mid, ids, last);
      LaneOfLeaver(mid, ids, last);
    }
  }

  lemma {:induction false} StayOnLanes(host: Host, ids: Ids, order: seq<JobId>)
    requires Listed(host, ids, order) && Distinct(order) && OnLanes(host)
    ensures OnLanes(SweepAll(host, ids, order))
  {
    hide SweepJob, OnLane;
    var r := SweepAll(host, ids, order);
    forall j | j in r.jobs
      ensures OnLane(r.jobs[j])
    {
      if host.jobs == map[] {
        SweepNoJobs(host, ids, order);
      } else {
        var some :| some in host.jobs.Keys;
        SweepAllAt(host, ids, order, some);
        SweepAllAt(host, ids, order, j);
        if j in order {
          SweepStaysOnLane(host.jobs[j], IsClaude(host, host.jobs[j].agent), ids.retry[j], ids.source[j], 0);
        }
      }
    }
  }

  lemma SweepNoJobs(host: Host, ids: Ids, order: seq<JobId>)
    requires Listed(host, ids, order) && host.jobs == map[]
    ensures order == [] && SweepAll(host, ids, order) == host
  {
    var first := if order == [] then 0 else order[0];
    assert order == [] || first in order;
  }

  lemma LaneOfLeaver(host: Host, ids: Ids, j: JobId)
    requires j in host.jobs && j in ids.retry && j in ids.source && Left(host, ids, j)
    ensures LaneFine(SweepOne(host, ids, j), host.jobs[j].agent)
  {
    hide SweepJob, LiveOn, Interrupts;
  }

  lemma LaneAfterOne(host: Host, ids: Ids, j: JobId, a: AgentId)
    requires j in host.jobs && j in ids.retry && j in ids.source && OnLanes(host) && LaneFine(host, a)
    ensures LaneFine(SweepOne(host, ids, j), a)
  {
    var r := SweepOne(host, ids, j);
    SweepStaysOnLane(host.jobs[j], IsClaude(host, host.jobs[j].agent), ids.retry[j], ids.source[j], a);
    hide SweepJob, Interrupts, LiveOnLane, OnLanes;
    if a in r.agents && r.agents[a].status.AgentRunning? {
      var k :| k in host.jobs && LiveOnLane(host.jobs[k], a);
      if k != j {
        assert r.jobs[k] == host.jobs[k];
      } else if !Left(host, ids, j) {
        assert r.jobs[j] == host.jobs[j];
      } else {
        assert a == host.jobs[j].agent;
        assert LiveOn(r.jobs, a);
      }
    }
  }

  lemma OneLane(host: Host, ids: Ids, j: JobId, a: AgentId)
    requires j in host.jobs && j in ids.retry && j in ids.source && a in host.agents
    ensures var r := SweepOne(host, ids, j);
            && r.agents.Keys == host.agents.Keys
            && (r.agents[a] == host.agents[a] || r.agents[a] == host.agents[a].(status := Idle))
            && (r.agents[a] != host.agents[a] ==>
                  host.jobs[j].agent == a && Left(host, ids, j) && (Interrupts(host, j) || !LiveOn(r.jobs, a)))
            && (host.jobs[j].agent == a && Left(host, ids, j) && Interrupts(host, j) ==> r.agents[a].status.Idle?)
  {
    hide SweepJob, LiveOn, Interrupts;
  }

  lemma LiveLess(host: Host, ids: Ids, j: JobId, a: AgentId)
    requires j in host.jobs && j in ids.retry && j in ids.source && OnLanes(host) && !LiveOn(host.jobs, a)
    ensures !LiveOn(SweepOne(host, ids, j).jobs, a)
  {
    SweepStaysOnLane(host.jobs[j], IsClaude(host, host.jobs[j].agent), ids.retry[j], ids.source[j], a);
    hide SweepJob, Interrupts, LiveOnLane, OnLanes, OnLane;
    var r := SweepOne(host, ids, j);
    assert forall k :: k in r.jobs && LiveOnLane(r.jobs[k], a) ==> k in host.jobs && LiveOnLane(host.jobs[k], a);
  }

  /** The job left its lane because its Claude run was cut off by the restart. */
  predicate CutOff(host: Host, ids: Ids, j: JobId)
    requires j in host.jobs && j in ids.retry && j in ids.source
  {
    Left(host, ids, j) && Interrupts(host, j)
  }

  lemma CutOffSame(host: Host, mid: Host, ids: Ids, j: JobId)
    requires j in host.jobs && j in mid.jobs && j in ids.retry && j in ids.source && mid.jobs[j] == host.jobs[j]
    requires forall b :: IsClaude(mid, b) == IsClaude(host, b)
    ensures Left(mid, ids, j) == Left(host, ids, j) && Interrupts(mid, j) == Interrupts(host, j)
  {
    hide SweepJob;
  }

  /** The sweep changes a lane only by making it idle, and only one that a job of its own left: because a
      Claude run on it was cut off, or with nothing live on it in the end. A lane with such a run is idle
      afterwards. */
  lemma {:induction false} LanesChangeOnly(host: Host, ids: Ids, order: seq<JobId>, a: AgentId)
    requires Listed(host, ids, order) && Distinct(order) && OnLanes(host) && a in host.agents
    ensures var r := SweepAll(host, ids, order);
            && r.agents.Keys == host.agents.Keys
            && (r.agents[a] == host.agents[a] || r.agents[a] == host.agents[a].(status := Idle))
            && (r.agents[a] != host.agents[a] ==>
                  exists j :: j in order && host.jobs[j].agent == a && Left(host, ids, j)
                              && (CutOff(host, ids, j) || !LiveOn(r.jobs, a)))
            && ((exists j :: j in order && host.jobs[j].agent == a && CutOff(host, ids, j))
                  ==> r.agents[a].status.Idle?)
    decreases |order|
  {
    hide SweepOne, SweptJob, Left, IsClaude, OnLanes, Distinct, Interrupts, LiveOn;
    if order != [] {
      var front, last := order[..|order| - 1], order[|order| - 1];
      LastIsNew(order);
      var mid := SweepAll(host, ids, front);
      LanesChangeOnly(host, ids, front, a);
      SweepAllAt(host, ids, front, last);
      CutOffSame(host, mid, ids, last);
      OneLane(mid, ids, last, a);
      StayOnLanes(host, ids, front);
      if !LiveOn(mid.jobs, a) {
        LiveLess(mid, ids, last, a);
      }
    }
  }

  /** A turn is interrupted by the sweep if and only if its started job is on the lane of a Claude agent and
      it was running, waiting or asking. */
  lemma InterruptedIff(host: Host, ids: Ids, order: seq<JobId>, j: JobId, t: TurnId)
    requires Listed(host, ids, order) && Distinct(order) && j in order && t in host.jobs[j].turns
    requires ids.retry[j] !in host.jobs[j].turns && !host.jobs[j].turns[t].status.Interrupted?
    ensures var rows, after := host.jobs[j], SweepAll(host, ids, order).jobs[j];
            && t in after.turns
            && (after.turns[t].status.Interrupted?
                <==> && rows.status.JobStarted? && rows.agent in host.agents && host.agents[rows.agent].claude
                     && LifecycleOutcomes.Cut(rows, t))
  {
    hide SweepAll, SweepJob, LifecycleOutcomes.Cut, Distinct;
    SweepAllAt(host, ids, order, j);
    InterruptedIn(host.jobs[j], IsClaude(host, host.jobs[j].agent), ids.retry[j], ids.source[j], t);
  }

  lemma InterruptedIn(rows: Rows, claude: bool, retry: TurnId, source: TurnId, t: TurnId)
    requires t in rows.turns && retry !in rows.turns && !rows.turns[t].status.Interrupted?
    ensures var r := SweepJob(rows, claude, retry, source).rows;
            t in r.turns
            && (r.turns[t].status.Interrupted? <==> rows.status.JobStarted? && claude && LifecycleOutcomes.Cut(rows, t))
  {
    hide Answered, Stalled, PreserveMessage, Interrupt, LifecycleOutcomes.Cut;
    forall u
      ensures LifecycleOutcomes.Cut(rows, u) <==> Stalled(rows, u)
      ensures Stalled(rows, u) ==> u in rows.turns
    {
      LifecycleOutcomes.CutIs(rows, u);
      StalledIsTurn(rows, u);
    }
    if rows.status.JobStarted? && claude && exists u :: LifecycleOutcomes.Cut(rows, u) {
      LifecycleOutcomes.InterruptedIs(rows, retry, source);
    } else {
      PreservedTurn(rows, retry, source, t);
    }
  }

  lemma StalledIsTurn(rows: Rows, t: TurnId)
    ensures Stalled(rows, t) ==> t in rows.turns
  {
  }

  lemma PreservedTurn(rows: Rows, retry: TurnId, source: TurnId, t: TurnId)
    requires t in rows.turns && retry != t && !rows.turns[t].status.Interrupted?
    ensures var r := PreserveMessage(CloseCrashed(rows), retry, source);
            t in r.turns && !r.turns[t].status.Interrupted?
  {
  }

  /** The lanes to kick are exactly those with a queued job. */
  lemma KickedIff(host: Host, a: AgentId)
    ensures a in Kick(host) <==> exists j :: j in host.jobs && host.jobs[j].status.JobQueued? && host.jobs[j].agent == a
  {
  }

  // Every started job is accounted for.

  /** What recovery promises of a job that was started. */
  predicate Accounted(host: Host, ids: Ids, order: seq<JobId>, r: Host, j: JobId)
    requires (forall k :: k in order ==> k in host.jobs && k in ids.retry && k in ids.source) && j in r.jobs
  {
    var rows := r.jobs[j];
    || (rows.status.JobQueued? && rows.agent in Kick(r) && forall t :: t in rows.turns ==> !Live(rows.turns[t].status))
    || rows.status.JobCancelled?
    || (exists t :: t in rows.turns && rows.turns[t].status.Waiting?)
    || (exists t :: t in rows.turns && (j, t) in ResumeOf(host, ids, order))
    || (exists t :: t in rows.turns && rows.turns[t].result.Some?)
  }

  /** After the sweep every job that was started is queued on a lane to kick with nothing running,
      cancelled, waiting, listed to resume, or has a stored result. */
  lemma StartedJobsAccounted(host: Host, ids: Ids, order: seq<JobId>, j: JobId)
    requires Listed(host, ids, order) && Distinct(order) && j in order && host.jobs[j].status.JobStarted?
    requires Inv(World(host.jobs[j], false, {}, {}))
    requires Enabled(World(host.jobs[j], false, {}, {}),
                     Step.Sweep(IsClaude(host, host.jobs[j].agent), ids.retry[j], ids.source[j]))
    ensures j in SweepAll(host, ids, order).jobs && Accounted(host, ids, order, SweepAll(host, ids, order), j)
  {
    hide SweepJob, SweepAll, Inv, Enabled, Distinct;
    SweepAllAt(host, ids, order, j);
    var step := Step.Sweep(IsClaude(host, host.jobs[j].agent), ids.retry[j], ids.source[j]);
    SweepClassifies(World(host.jobs[j], false, {}, {}), step);
    var swept := SweptJob(host, ids, j);
    ResumesOwnTurns(host.jobs[j], step.claude, step.retry, step.source);
    if t :| t in swept.resume {
      assert (j, t) in ResumeOf(host, ids, order);
    }
  }

  lemma ResumesOwnTurns(rows: Rows, claude: bool, retry: TurnId, source: TurnId)
    ensures var swept := SweepJob(rows, claude, retry, source); forall t :: t in swept.resume ==> t in swept.rows.turns
  {
  }
}

module Recovery {
  import opened LifecycleModel
  import opened RecoveryModel

  class HostTables {
    var jobs: map<JobId, Rows>
    var agents: map<AgentId, Agent>

    function Value(): Host
      reads this
    {
      Host(jobs, agents)
    }

    /** The sweep over the jobs in the order they are read, and the work it leaves for the worker. */
    method Recover(order: seq<JobId>, ids: Ids) returns (kick: set<AgentId>, resume: set<(JobId, TurnId)>)
      requires Listed(Value(), ids, order) && Distinct(order)
      modifies this
      ensures Value() == SweepAll(old(Value()), ids, order)
      ensures kick == Kick(Value())
      ensures resume == ResumeOf(old(Value()), ids, order)
    {
      hide SweepJob, LiveOn, RecoveryModel.Interrupts, Stalled, SweepAll, ResumeOf, Distinct;
      ghost var before := Value();
      resume := {};
      assert order[..0] == [] && SweepAll(before, ids, []) == before && ResumeOf(before, ids, []) == {} by {
        SweepNone(before, ids);
      }
      for i := 0 to |order|
        invariant Value() == SweepAll(before, ids, order[..i])
        invariant resume == ResumeOf(before, ids, order[..i])
      {
        var j := order[i];
        var rows := jobs[j];
        SweepNext(before, ids, order, i);
        assert Value().jobs[j] == rows;
        var swept := SweepJob(rows, IsClaude(Value(), rows.agent), ids.retry[j], ids.source[j]);
        var interrupted := RecoveryModel.Interrupts(Value(), j);
        var a := rows.agent;
        jobs := jobs[j := swept.rows];
        if swept.rows.status != rows.status && a in agents {
          if interrupted || (agents[a].status.AgentRunning? && !LiveOn(jobs, a)) {
            agents := agents[a := agents[a].(status := Idle)];
          }
        }
        resume := resume + set t | t in swept.resume :: (j, t);
      }
      assert order[..|order|] == order;
      kick := Kick(Value());
    }
  }

  lemma SweepNone(host: Host, ids: Ids)
    ensures SweepAll(host, ids, []) == host && ResumeOf(host, ids, []) == {}
  {
  }

  lemma SweepNext(host: Host, ids: Ids, order: seq<JobId>, i: nat)
    requires Listed(host, ids, order) && Distinct(order) && i < |order|
    ensures var j, mid := order[i], SweepAll(host, ids, order[..i]);
            && SweepAll(host, ids, order[..i + 1]) == SweepOne(mid, ids, j)
            && j in mid.jobs && SweptJob(mid, ids, j) == SweptJob(host, ids, j)
            && ResumeOf(host, ids, order[..i + 1])
               == ResumeOf(host, ids, order[..i]) + set t | t in SweptJob(mid, ids, j).resume :: (j, t)
  {
    hide SweptJob, SweepOne, IsClaude, Distinct, ResumeOf;
    var j := order[i];
    assert order[..i + 1][..i] == order[..i] && order[..i + 1][i] == j;
    NextIsNew(order, i);
    SweepAllAt(host, ids, order[..i], j);
    SweptSame(host, SweepAll(host, ids, order[..i]), ids, j);
    ResumeNext(host, ids, order, i);
  }

  lemma NextIsNew(order: seq<JobId>, i: nat)
    requires Distinct(order) && i < |order|
    ensures Distinct(order[..i]) && order[i] !in order[..i]
    ensures forall j :: j in order[..i + 1] <==> j in order[..i] || j == order[i]
  {
  }

  lemma SweptSame(host: Host, mid: Host, ids: Ids, j: JobId)
    requires j in host.jobs && j in mid.jobs && j in ids.retry && j in ids.source && mid.jobs[j] == host.jobs[j]
    requires forall a :: IsClaude(mid, a) == IsClaude(host, a)
    ensures SweptJob(mid, ids, j) == SweptJob(host, ids, j)
  {
    hide SweepJob, IsClaude;
  }

  lemma ResumeNext(host: Host, ids: Ids, order: seq<JobId>, i: nat)
    requires Listed(host, ids, order) && Distinct(order) && i < |order|
    ensures ResumeOf(host, ids, order[..i + 1])
            == ResumeOf(host, ids, order[..i]) + set t | t in SweptJob(host, ids, order[i]).resume :: (order[i], t)
  {
    hide SweptJob, Distinct;
    NextIsNew(order, i);
  }
}
