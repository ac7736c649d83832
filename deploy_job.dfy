/** A model of DeployJob#perform: the job that runs one pending deploy of a
    stack through its command pipeline, maps the first failing command to the
    deploy's terminal status, records the stack's capabilities, enqueues the
    follow-up job and clears the working directory.

    Running a command is replaced by the outcome the command is given in
    advance, and the command provider (DeployCommands) by a total function
    from stage requests to the commands of that stage. */
module DeployJobs {

  /** The deploy's lifecycle states. */
  datatype Status = Pending | Running | Success | Failed | Error

  /** The transitions the deploy state machine allows: run, then one of
      complete, failure or error. A terminal state is final, and nothing
      goes back to pending. */
  predicate LegalTransition(from: Status, to: Status): (b: bool)
    ensures b ==> !IsTerminal(from) && to != Pending && from != to
    ensures b ==> (IsTerminal(to) <==> from == Running)
  {
    (from == Pending && to == Running) ||
    (from == Running && (to == Success || to == Failed || to == Error))
  }

  predicate IsTerminal(s: Status)
  {
    s == Success || s == Failed || s == Error
  }

  /** What capturing one command ends with: normal completion, a
      Command::Error (non-zero exit), a Timeout::Error, or any other
      application error. */
  datatype Outcome = Ok | CommandError | TimeoutError | ApplicationError

  /** A shell command of a stage, together with the outcome running it has. */
  datatype Command = Command(line: string, outcome: Outcome)

  /** The stages requested from the command provider; checkout and deploy
      are given the deploy's target revision. */
  datatype StageRequest =
    | Fetch
    | Clone
    | Checkout(commit: string)
    | InstallDependencies
    | DeployStage(commit: string)

  /** A job put on the background queue. */
  datatype FollowUp = FetchDeployedRevisionJob(stackId: nat)

  /** How perform ends for its caller: it returns, or it raises an error. */
  datatype Exit = Returned | Raised(error: Outcome)

  /** The stages of a deploy of revision untilCommit, in the order they run. */
  function Pipeline(untilCommit: string): (p: seq<StageRequest>)
    ensures forall i, j :: 0 <= i < j < |p| ==> p[i] != p[j]
    ensures Checkout(untilCommit) in p && DeployStage(untilCommit) in p
    ensures forall s :: s in p && (s.Checkout? || s.DeployStage?) ==> s.commit == untilCommit
  {
    [Fetch, Clone, Checkout(untilCommit), InstallDependencies, DeployStage(untilCommit)]
  }

  /** The index of the first command that does not end Ok, or |cmds| if
      there is none. */
  function FirstFailure(cmds: seq<Command>): (k: nat)
    ensures k <= |cmds|
    ensures forall i :: 0 <= i < k ==> cmds[i].outcome == Ok
    ensures k < |cmds| ==> cmds[k].outcome != Ok
  {
    if cmds == [] then 0
    else if cmds[0].outcome != Ok then 0
    else 1 + FirstFailure(cmds[1..])
  }

  /** The commands of a stage that run: all of them up to and including the
      first that does not end Ok. */
  function Ran(cmds: seq<Command>): (r: seq<Command>)
    ensures r <= cmds
    ensures forall i :: 0 <= i < |r| - 1 ==> r[i].outcome == Ok
    ensures StageOutcome(cmds) == Ok ==> r == cmds
    ensures StageOutcome(cmds) != Ok ==> r == cmds[..FirstFailure(cmds) + 1]
    ensures StageOutcome(cmds) != Ok ==> r != [] && Last(r).outcome == StageOutcome(cmds)
  {
    var k := FirstFailure(cmds);
    if k < |cmds| then cmds[..k + 1] else cmds
  }

  /** The outcome of running a stage: that of its first failing command, or
      Ok if every command ends Ok. */
  function StageOutcome(cmds: seq<Command>): Outcome
  {
    var k := FirstFailure(cmds);
    if k < |cmds| then cmds[k].outcome else Ok
  }

  /** Running the commands that ran again runs all of them and ends the
      same way: nothing of a stage after its first failure matters. */
  lemma {:induction false} RanIsIdempotent(cmds: seq<Command>)
    ensures Ran(Ran(cmds)) == Ran(cmds)
    ensures StageOutcome(Ran(cmds)) == StageOutcome(cmds)
  {
    var r := Ran(cmds);
    var k := FirstFailure(cmds);
    if k < |cmds| {
      assert k < |r| && r[k] == cmds[k];
      assert FirstFailure(r) >= k;
    }
  }

  /** Commands after a stage's first failure never run and do not change how
      the stage ends, whatever they are. */
  lemma RanIgnoresTail(cmds: seq<Command>, e: seq<Command>)
    requires StageOutcome(cmds) != Ok
    ensures Ran(cmds + e) == Ran(cmds)
    ensures StageOutcome(cmds + e) == StageOutcome(cmds)
  {
    FirstFailureOfAppend(cmds, e);
    var k := FirstFailure(cmds);
    assert (cmds + e)[..k + 1] == cmds[..k + 1];
    assert (cmds + e)[k] == cmds[k];
  }

  function Last(cmds: seq<Command>): Command
    requires cmds != []
  {
    cmds[|cmds| - 1]
  }

  lemma LastOfAppend(a: seq<Command>, b: seq<Command>)
    requires b != []
    ensures a + b != [] && Last(a + b) == Last(b)
  {
  }

  /** The commands terminated by a run that captured these commands and
      ended with outcome o: the last one, when it timed out. */
  function TerminatedBy(captured: seq<Command>, o: Outcome): seq<Command>
  {
    if o == TimeoutError && captured != [] then [Last(captured)] else []
  }

  /** The commands of the stages, one stage after the other. */
  function Commands(provider: StageRequest -> seq<Command>, stages: seq<StageRequest>): seq<Command>
  {
    if stages == [] then [] else provider(stages[0]) + Commands(provider, stages[1..])
  }

  /** What one run of the pipeline does: the stages it requests, the
      commands it captures and the outcome it ends with. */
  datatype Trace = Trace(requested: seq<StageRequest>, captured: seq<Command>, outcome: Outcome)

  /** The specification of the pipeline run: each stage is requested and its
      commands captured one by one, and the run stops at the first command
      that does not end Ok. */
  function Drive(provider: StageRequest -> seq<Command>, stages: seq<StageRequest>): (t: Trace)
    ensures t.requested <= stages
    ensures t.outcome == Ok ==> t.requested == stages
  {
    if stages == [] then Trace([], [], Ok)
    else
      var cmds := provider(stages[0]);
      if StageOutcome(cmds) != Ok then Trace([stages[0]], Ran(cmds), StageOutcome(cmds))
      else
        var rest := Drive(provider, stages[1..]);
        Trace([stages[0]] + rest.requested, cmds + rest.captured, rest.outcome)
  }

  /** A run that does not succeed ends with the command that failed it, so
      a timed-out run terminates exactly the command that timed out. */
  lemma {:induction false} DriveEndsAtFailingCommand(provider: StageRequest -> seq<Command>, stages: seq<StageRequest>)
    ensures var t := Drive(provider, stages);
            t.outcome != Ok ==> t.captured != [] && Last(t.captured).outcome == t.outcome
    ensures var t := Drive(provider, stages);
            && (TerminatedBy(t.captured, t.outcome) != [] <==> t.outcome == TimeoutError)
            && (forall c :: c in TerminatedBy(t.captured, t.outcome) ==> c.outcome == TimeoutError)
  {
    if stages != [] {
      var cmds := provider(stages[0]);
      if StageOutcome(cmds) == Ok {
        DriveEndsAtFailingCommand(provider, stages[1..]);
        var rest := Drive(provider, stages[1..]);
        if rest.outcome != Ok {
          LastOfAppend(cmds, rest.captured);
        }
      }
    }
  }

  /** The run of the stages from i on, appended to request and capture logs
      that already hold req and cap: the shape in which the job runs them. */
  function RunFrom(provider: StageRequest -> seq<Command>, stages: seq<StageRequest>, i: nat,
                   req: seq<StageRequest>, cap: seq<Command>): Trace
    requires i <= |stages|
    decreases |stages| - i
  {
    if i == |stages| then Trace(req, cap, Ok)
    else
      var cmds := provider(stages[i]);
      if StageOutcome(cmds) != Ok then Trace(req + [stages[i]], cap + Ran(cmds), StageOutcome(cmds))
      else RunFrom(provider, stages, i + 1, req + [stages[i]], cap + cmds)
  }

  /** Running the stages from i on after logs req and cap adds exactly what
      Drive says the stages from i on request and capture. */
  lemma {:induction false} RunFromIsDrive(provider: StageRequest -> seq<Command>, stages: seq<StageRequest>,
                                          i: nat, req: seq<StageRequest>, cap: seq<Command>)
    requires i <= |stages|
    ensures var d := Drive(provider, stages[i..]);
            RunFrom(provider, stages, i, req, cap) == Trace(req + d.requested, cap + d.captured, d.outcome)
    decreases |stages| - i
  {
    var d := Drive(provider, stages[i..]);
    if i == |stages| {
      assert stages[i..] == [];
      assert req + [] == req && cap + [] == cap;
    } else {
      assert stages[i..][0] == stages[i] && stages[i..][1..] == stages[i + 1..];
      var cmds := provider(stages[i]);
      if StageOutcome(cmds) == Ok {
        RunFromIsDrive(provider, stages, i + 1, req + [stages[i]], cap + cmds);
        var rest := Drive(provider, stages[i + 1..]);
        assert (req + [stages[i]]) + rest.requested == req + ([stages[i]] + rest.requested);
        assert (cap + cmds) + rest.captured == cap + (cmds + rest.captured);
      }
    }
  }

  /** The outcome -> terminal status table: success when every command
      succeeded, failed on a command error, error otherwise. */
  function StatusFor(o: Outcome): (s: Status)
    ensures IsTerminal(s)
    ensures s == Success <==> o == Ok
    ensures s == Failed <==> o == CommandError
  {
    match o
    case Ok => Success
    case CommandError => Failed
    case TimeoutError => Error
    case ApplicationError => Error
  }

  /** What perform does with the outcome towards its caller: command errors
      are absorbed, timeouts and application errors are re-raised unchanged. */
  function ExitFor(o: Outcome): (e: Exit)
    ensures e.Raised? <==> StatusFor(o) == Error
    ensures e.Raised? ==> e.error == o
  {
    if o == TimeoutError || o == ApplicationError then Raised(o) else Returned
  }

  /** The first failure of two command lists run one after the other. */
  lemma {:induction false} FirstFailureOfAppend(a: seq<Command>, b: seq<Command>)
    ensures FirstFailure(a + b) ==
      if FirstFailure(a) < |a| then FirstFailure(a) else |a| + FirstFailure(b)
  {
    if a == [] {
      assert a + b == b;
    } else {
      assert (a + b)[0] == a[0];
      assert (a + b)[1..] == a[1..] + b;
      if a[0].outcome == Ok {
        FirstFailureOfAppend(a[1..], b);
      }
    }
  }

  /** Where a failure occurs in the flattened command list decides the whole
      run: the commands up to and including the first failing one are
      captured, none after it, and its outcome is the run's outcome. */
  lemma {:induction false} DriveStopsAtFirstFailure(provider: StageRequest -> seq<Command>, stages: seq<StageRequest>)
    ensures var all := Commands(provider, stages);
            var k := FirstFailure(all);
            var t := Drive(provider, stages);
            if k < |all| then t.captured == all[..k + 1] && t.outcome == all[k].outcome
            else t.captured == all && t.outcome == Ok
  {
    if stages != [] {
      var cmds := provider(stages[0]);
      var rest := Commands(provider, stages[1..]);
      var all := Commands(provider, stages);
      assert all == cmds + rest;
      FirstFailureOfAppend(cmds, rest);
      var k := FirstFailure(cmds);
      if k < |cmds| {
        assert all[..k + 1] == cmds[..k + 1];
        assert all[k] == cmds[k];
      } else {
        DriveStopsAtFirstFailure(provider, stages[1..]);
        var kr := FirstFailure(rest);
        if kr < |rest| {
          assert all[..|cmds| + kr + 1] == cmds + rest[..kr + 1];
          assert all[|cmds| + kr] == rest[kr];
        }
      }
    }
  }

  /** Every command of every stage succeeding is exactly what makes the run
      succeed, and then every stage has been requested and every command
      captured. */
  lemma AllCommandsOkIffSuccess(provider: StageRequest -> seq<Command>, stages: seq<StageRequest>)
    ensures (forall c :: c in Commands(provider, stages) ==> c.outcome == Ok) <==>
            StatusFor(Drive(provider, stages).outcome) == Success
    ensures StatusFor(Drive(provider, stages).outcome) == Success ==>
            Drive(provider, stages) == Trace(stages, Commands(provider, stages), Ok)
  {
    DriveStopsAtFirstFailure(provider, stages);
    var all := Commands(provider, stages);
    var k := FirstFailure(all);
    if k < |all| {
      assert all[k] in all;
    }
  }

  /** A command error ends the run with the deploy failed and nothing raised;
      a timeout or an application error ends it with the deploy in error and
      that same error raised; in every case nothing after the failing
      command is captured. */
  lemma FailureClassification(provider: StageRequest -> seq<Command>, stages: seq<StageRequest>, k: nat)
    requires k < |Commands(provider, stages)| && k == FirstFailure(Commands(provider, stages))
    ensures var o := Commands(provider, stages)[k].outcome;
            var t := Drive(provider, stages);
            && t.captured == Commands(provider, stages)[..k + 1]
            && (o == CommandError ==> StatusFor(t.outcome) == Failed && ExitFor(t.outcome) == Returned)
            && (o == TimeoutError ==> StatusFor(t.outcome) == Error && ExitFor(t.outcome) == Raised(TimeoutError))
            && (o == ApplicationError ==> StatusFor(t.outcome) == Error && ExitFor(t.outcome) == Raised(ApplicationError))
  {
    DriveStopsAtFirstFailure(provider, stages);
  }

  /** On a deploy of revision c no stage is requested twice, every requested
      stage is one of the five (checkout and deploy with revision c), and a
      successful run requests each of the five exactly once. */
  lemma PipelineRequestsEachStageOnce(provider: StageRequest -> seq<Command>, c: string)
    ensures var r := Drive(provider, Pipeline(c)).requested;
            && (forall i, j :: 0 <= i < j < |r| ==> r[i] != r[j])
            && (forall s :: s in r ==> s in Pipeline(c))
    ensures Drive(provider, Pipeline(c)).outcome == Ok ==>
            multiset(Drive(provider, Pipeline(c)).requested) == multiset(Pipeline(c))
  {
    var p := Pipeline(c);
    var r := Drive(provider, p).requested;
    assert r == p[..|r|];
    forall i, j | 0 <= i < j < |r| ensures r[i] != r[j] {
      assert r[i] == p[i] && r[j] == p[j];
    }
  }

  /** The deployment target and the capabilities recorded on it. */
  class Stack {
    const id: nat
    var supportsRollback: bool
    var supportsFetchDeployedRevision: bool

    constructor (id: nat)
      ensures this.id == id
      ensures !supportsRollback && !supportsFetchDeployedRevision
    {
      this.id := id;
      supportsRollback := false;
      supportsFetchDeployedRevision := false;
    }
  }

  /** One deploy of a stack: its target revision, its status and the states
      it has gone through, and how often its working directory was cleared. */
  class Deploy {
    const stack: Stack
    const untilCommit: string
    var status: Status
    ghost var history: seq<Status>
    var workingDirectoryClears: nat

    /** The status is the last state of a history that starts pending and
        moves only along legal transitions. */
    ghost predicate Valid()
      reads this
    {
      && |history| > 0
      && history[0] == Pending
      && history[|history| - 1] == status
      && forall i :: 0 <= i < |history| - 1 ==> LegalTransition(history[i], history[i + 1])
    }

    constructor (stack: Stack, untilCommit: string)
      ensures Valid()
      ensures this.stack == stack && this.untilCommit == untilCommit
      ensures status == Pending && history == [Pending] && workingDirectoryClears == 0
    {
      this.stack := stack;
      this.untilCommit := untilCommit;
      status := Pending;
      history := [Pending];
      workingDirectoryClears := 0;
    }

    /** Fires one state-machine event; the event is only defined from the
        state it leaves. */
    method Fire(to: Status)
      requires Valid() && LegalTransition(status, to)
      modifies this
      ensures Valid()
      ensures status == to && history == old(history) + [to]
      ensures workingDirectoryClears == old(workingDirectoryClears)
    {
      status := to;
      history := history + [to];
    }

    method ClearWorkingDirectory()
      modifies this
      ensures workingDirectoryClears == old(workingDirectoryClears) + 1
      ensures status == old(status) && history == old(history)
    {
      workingDirectoryClears := workingDirectoryClears + 1;
    }
  }

  /** The job: what it has requested from the command provider, the commands
      it has captured and terminated, and the background queue it feeds. */
  class DeployJob {
    var requested: seq<StageRequest>
    var captured: seq<Command>
    var terminated: seq<Command>
    var queue: seq<FollowUp>

    constructor ()
      ensures requested == [] && captured == [] && terminated == [] && queue == []
    {
      requested, captured, terminated, queue := [], [], [], [];
    }

    /** Runs one command; a command that times out is terminated. */
    method Capture(cmd: Command) returns (o: Outcome)
      modifies this
      ensures o == cmd.outcome
      ensures captured == old(captured) + [cmd]
      ensures terminated == old(terminated) + (if o == TimeoutError then [cmd] else [])
      ensures requested == old(requested) && queue == old(queue)
    {
      captured := captured + [cmd];
      o := cmd.outcome;
      if o == TimeoutError {
        terminated := terminated + [cmd];
      }
    }

    /** Runs the commands of one stage in turn, stopping at the first one
        that does not end Ok. */
    method CaptureAll(cmds: seq<Command>) returns (o: Outcome)
      modifies this
      ensures o == StageOutcome(cmds)
      ensures captured == old(captured) + Ran(cmds)
      ensures terminated == old(terminated) + TerminatedBy(Ran(cmds), o)
      ensures requested == old(requested) && queue == old(queue)
    {
      o := Ok;
      var j := 0;
      while j < |cmds| && o == Ok
        invariant 0 <= j <= |cmds|
        invariant captured == old(captured) + cmds[..j]
        invariant forall m :: 0 <= m < j - 1 ==> cmds[m].outcome == Ok
        invariant j > 0 ==> o == cmds[j - 1].outcome
        invariant j == 0 ==> o == Ok
        invariant terminated == old(terminated) + (if o == TimeoutError then [cmds[j - 1]] else [])
        invariant requested == old(requested) && queue == old(queue)
      {
        o := Capture(cmds[j]);
        j := j + 1;
      }
      assert o == Ok ==> j == |cmds| && cmds[..j] == cmds;
      assert o != Ok ==> FirstFailure(cmds) == j - 1 && Last(cmds[..j]) == cmds[j - 1];
    }

    /** Requests the stages one by one and captures the commands of each,
        until a command does not end Ok. */
    method RunStages(provider: StageRequest -> seq<Command>, stages: seq<StageRequest>)
      returns (outcome: Outcome)
      modifies this
      ensures var t := Drive(provider, stages);
              && outcome == t.outcome
              && requested == old(requested) + t.requested
              && captured == old(captured) + t.captured
              && terminated == old(terminated) + TerminatedBy(t.captured, t.outcome)
      ensures queue == old(queue)
    {
      ghost var run := RunFrom(provider, stages, 0, requested, captured);
      RunFromIsDrive(provider, stages, 0, requested, captured);
      assert stages[0..] == stages;
      ghost var t := Drive(provider, stages);
      DriveEndsAtFailingCommand(provider, stages);
      var i := 0;
      while i < |stages|
        invariant 0 <= i <= |stages|
        invariant RunFrom(provider, stages, i, requested, captured) == run
        invariant terminated == old(terminated) && queue == old(queue)
      {
        var stage := stages[i];
        requested := requested + [stage];
        var cmds := provider(stage);
        ghost var cap := captured;
        outcome := CaptureAll(cmds);
        if outcome != Ok {
          LastOfAppend(cap, Ran(cmds));
          LastOfAppend(old(captured), t.captured);
          return;
        }
        i := i + 1;
      }
      outcome := Ok;
    }

    /** DeployJob#perform. A deploy that is not pending is left alone.
        Otherwise the deploy runs, each stage is requested and its commands
        captured until one fails, the first failure decides the terminal
        status and what is raised, the stack's capabilities are set to what
        the deploy spec reports, a successful deploy enqueues one
        FetchDeployedRevisionJob for its stack, and the working directory is
        cleared once. */
    method Perform(deploy: Deploy, provider: StageRequest -> seq<Command>,
                   specSupportsRollback: bool, specSupportsFetchDeployedRevision: bool)
      returns (exit: Exit)
      requires deploy.Valid()
      modifies this, deploy, deploy.stack
      ensures deploy.Valid()
      ensures old(deploy.status) != Pending ==>
        && exit == Returned
        && unchanged(this) && unchanged(deploy) && unchanged(deploy.stack)
      ensures old(deploy.status) == Pending ==>
        var t := Drive(provider, Pipeline(deploy.untilCommit));
        && requested == old(requested) + t.requested
        && captured == old(captured) + t.captured
        && terminated == old(terminated) + TerminatedBy(t.captured, t.outcome)
        && deploy.status == StatusFor(t.outcome)
        && deploy.history == old(deploy.history) + [Running, StatusFor(t.outcome)]
        && exit == ExitFor(t.outcome)
        && deploy.stack.supportsRollback == specSupportsRollback
        && deploy.stack.supportsFetchDeployedRevision == specSupportsFetchDeployedRevision
        && queue == old(queue) +
             (if t.outcome == Ok then [FetchDeployedRevisionJob(deploy.stack.id)] else [])
        && deploy.workingDirectoryClears == old(deploy.workingDirectoryClears) + 1
    {
      if deploy.status != Pending {
        return Returned;
      }
      ghost var history := deploy.history;
      deploy.Fire(Running);
      var outcome := RunStages(provider, Pipeline(deploy.untilCommit));
      deploy.Fire(StatusFor(outcome));
      assert deploy.history == history + [Running, StatusFor(outcome)];
      deploy.stack.supportsRollback := specSupportsRollback;
      deploy.stack.supportsFetchDeployedRevision := specSupportsFetchDeployedRevision;
      if outcome == Ok {
        queue := queue + [FetchDeployedRevisionJob(deploy.stack.id)];
      }
      deploy.ClearWorkingDirectory();
      exit := ExitFor(outcome);
    }
  }
}
