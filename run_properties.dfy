/**
 * What every run of the handler guarantees, read off its trace of effects:
 * the order of the updates, their progress values, the single terminal
 * update, the routing of thrown errors, and the best-effort summarisation.
 */
module RunProperties {
  import opened Wrappers
  import opened Strings
  import opened Http
  import opened Citations
  import opened Report
  import opened Research
  import opened JsonSpan
  import opened Jobs

  /** The updates a trace sends to the job store, in order. */
  function Updates(t: seq<Effect>): seq<JobUpdate> {
    if t == [] then []
    else (if t[0].UpdateJob? then [t[0].update] else []) + Updates(t[1..])
  }

  lemma {:induction false} UpdatesAppend(a: seq<Effect>, b: seq<Effect>)
    ensures Updates(a + b) == Updates(a) + Updates(b)
  {
    if a != [] {
      assert (a + b)[1..] == a[1..] + b;
      UpdatesAppend(a[1..], b);
    } else {
      assert a + b == b;
    }
  }

  /** The update an effect sends, if it is one. */
  function Sent(e: Effect): seq<JobUpdate> {
    if e.UpdateJob? then [e.update] else []
  }

  lemma UpdatesCons(e: Effect, t: seq<Effect>)
    ensures Updates([e] + t) == Sent(e) + Updates(t)
  {
    assert ([e] + t)[1..] == t;
  }

  lemma UpdatesOne(e: Effect)
    ensures Updates([e]) == Sent(e)
  {
    assert [e][1..] == [];
  }

  /** The updates sent up to the first research call. */
  lemma UpdatesPhase1(jobId: string, config: Config, world: World, job: Job)
    ensures Updates(Phase1Effects(jobId, config, world, job)) == [RunningUpdate(), ProgressUpdate(10, Phase1Message)]
  {
    var p := Phase1Effects(jobId, config, world, job);
    assert p == [p[0]] + ([p[1]] + ([p[2]] + [p[3]]));
    UpdatesCons(p[0], [p[1]] + ([p[2]] + [p[3]]));
    UpdatesCons(p[1], [p[2]] + [p[3]]);
    UpdatesCons(p[2], [p[3]]);
    UpdatesOne(p[3]);
  }

  /** The updates sent up to the second research call. */
  lemma UpdatesPhase2(jobId: string, config: Config, world: World, job: Job)
    ensures Updates(Phase2Effects(jobId, config, world, job))
      == [RunningUpdate(), ProgressUpdate(10, Phase1Message), ProgressUpdate(45, Phase1DoneMessage), ProgressUpdate(50, Phase2Message)]
  {
    var p1 := Phase1Effects(jobId, config, world, job);
    var more := Phase2Effects(jobId, config, world, job)[|p1|..];
    assert Phase2Effects(jobId, config, world, job) == p1 + more;
    UpdatesAppend(p1, more);
    UpdatesPhase1(jobId, config, world, job);
    assert more == [more[0]] + ([more[1]] + [more[2]]);
    UpdatesCons(more[0], [more[1]] + [more[2]]);
    UpdatesCons(more[1], [more[2]]);
    UpdatesOne(more[2]);
  }

  /** The updates sent up to the persisted research. */
  lemma UpdatesPersist(jobId: string, config: Config, world: World, job: Job, report: string, merged: seq<string>)
    ensures Updates(PersistEffects(jobId, config, world, job, report, merged))
      == [RunningUpdate(), ProgressUpdate(10, Phase1Message), ProgressUpdate(45, Phase1DoneMessage), ProgressUpdate(50, Phase2Message),
          ProgressUpdate(85, CombiningMessage), PersistUpdate(report, merged)]
  {
    var p2 := Phase2Effects(jobId, config, world, job);
    var more := PersistEffects(jobId, config, world, job, report, merged)[|p2|..];
    assert PersistEffects(jobId, config, world, job, report, merged) == p2 + more;
    UpdatesAppend(p2, more);
    UpdatesPhase2(jobId, config, world, job);
    assert more == [more[0]] + [more[1]];
    UpdatesCons(more[0], [more[1]]);
    UpdatesOne(more[1]);
  }

  /** The updates of a run in which nothing throws. */
  lemma UpdatesFinal(jobId: string, config: Config, world: World, job: Job, report: string, merged: seq<string>)
    ensures var total := |merged|;
      Updates(FinalEffects(jobId, config, world, job, report, merged))
      == Updates(PersistEffects(jobId, config, world, job, report, merged))
         + [CompletedUpdate(total, Summarise(config.summariserKey, world.summariser, world.jsonParse, total))]
  {
    var total := |merged|;
    var persisted := PersistEffects(jobId, config, world, job, report, merged);
    var summarised := if config.summariserKey then [AskSummariser(report)] else [];
    var completed := [UpdateJob(jobId, CompletedUpdate(total, Summarise(config.summariserKey, world.summariser, world.jsonParse, total)),
                                world.storeOk(6))];
    assert FinalEffects(jobId, config, world, job, report, merged) == persisted + summarised + completed;
    UpdatesAppend(persisted + summarised, completed);
    UpdatesAppend(persisted, summarised);
    UpdatesOne(completed[0]);
    if config.summariserKey {
      UpdatesOne(summarised[0]);
    }
  }

  /** A run's updates: those of its `try` block, then the failure report if it threw. */
  lemma UpdatesOfRun(jobId: string, config: Config, world: World)
    ensures var a := Attempt(jobId, config, world);
      Updates(Run(jobId, config, world))
      == Updates(a.effects) + (if a.thrown.Some? then [FailedUpdate(a.thrown.value)] else [])
  {
    var a := Attempt(jobId, config, world);
    var tail := match a.thrown
      case Some(m) => [UpdateJob(jobId, FailedUpdate(m), world.storeOk(a.sent))]
      case None => [];
    assert Run(jobId, config, world) == [Acknowledge(jobId)] + (a.effects + tail);
    UpdatesCons(Acknowledge(jobId), a.effects + tail);
    UpdatesAppend(a.effects, tail);
    if a.thrown.Some? {
      UpdatesOne(tail[0]);
    }
  }

  predicate IsTerminal(u: JobUpdate) {
    u.status == Some(Completed) || u.status == Some(Failed)
  }

  /** The progress values of the updates that carry one, in order. */
  function Progresses(us: seq<JobUpdate>): seq<nat> {
    if us == [] then []
    else (if us[0].progress.Some? then [us[0].progress.value] else []) + Progresses(us[1..])
  }

  /** The progress checkpoints of a run in which nothing throws. */
  const Schedule: seq<nat> := [5, 10, 45, 50, 85, 95, 100]

  predicate StrictlyIncreasing(s: seq<nat>) {
    forall i, j :: 0 <= i < j < |s| ==> s[i] < s[j]
  }

  predicate JobFound(world: World) {
    GetJob(world.fetch).Ok? && GetJob(world.fetch).value.Some?
  }

  /**
   * The message of the first fatal error of a run, independently of the
   * trace: a failed fetch, then a failed first research call, then a failed
   * second one.
   */
  function FatalError(world: World): Option<string> {
    match GetJob(world.fetch)
    case Err(m) => Some(m)
    case Ok(None) => None
    case Ok(Some(_)) =>
      if CallResearch(world.phase1).Err? then Some(CallResearch(world.phase1).message)
      else if CallResearch(world.phase2).Err? then Some(CallResearch(world.phase2).message)
      else None
  }

  /** A run in which the job exists and no step throws. */
  predicate Succeeds(world: World) {
    JobFound(world) && FatalError(world).None?
  }

  /** The citations a successful run persists and counts. */
  function MergedCitations(world: World): seq<string>
    requires Succeeds(world)
  {
    Merge(CallResearch(world.phase1).value.citations, CallResearch(world.phase2).value.citations)
  }

  /** The report a successful run persists as `raw_research`. */
  function PersistedReport(world: World): string
    requires Succeeds(world)
  {
    ReportFor(GetJob(world.fetch).value.value, CallResearch(world.phase1).value, CallResearch(world.phase2).value)
  }

  /** A successful run is the acknowledgement followed by the whole `try` block. */
  lemma RunWhenSucceeds(jobId: string, config: Config, world: World)
    requires Succeeds(world)
    ensures Attempt(jobId, config, world)
      == Attempted(FinalEffects(jobId, config, world, GetJob(world.fetch).value.value,
                                PersistedReport(world), MergedCitations(world)), 7, None)
    ensures Run(jobId, config, world)
      == [Acknowledge(jobId)] + FinalEffects(jobId, config, world, GetJob(world.fetch).value.value,
                                             PersistedReport(world), MergedCitations(world))
  {
  }

  /** A fetch that throws: the run only reports the failure. */
  lemma UpdatesWhenFetchFails(jobId: string, config: Config, world: World)
    requires GetJob(world.fetch).Err?
    ensures Updates(Run(jobId, config, world)) == [FailedUpdate(GetJob(world.fetch).message)]
  {
    UpdatesOfRun(jobId, config, world);
    UpdatesOne(FetchJob(jobId));
  }

  /** A first research call that throws: `running`, progress 10, then the failure. */
  lemma UpdatesWhenPhase1Fails(jobId: string, config: Config, world: World)
    requires JobFound(world) && CallResearch(world.phase1).Err?
    ensures Updates(Run(jobId, config, world))
      == [RunningUpdate(), ProgressUpdate(10, Phase1Message), FailedUpdate(CallResearch(world.phase1).message)]
  {
    UpdatesOfRun(jobId, config, world);
    UpdatesPhase1(jobId, config, world, GetJob(world.fetch).value.value);
  }

  /** A second research call that throws: the first phase's updates, progress 45 and 50, then the failure. */
  lemma UpdatesWhenPhase2Fails(jobId: string, config: Config, world: World)
    requires JobFound(world) && CallResearch(world.phase1).Ok? && CallResearch(world.phase2).Err?
    ensures Updates(Run(jobId, config, world))
      == [RunningUpdate(), ProgressUpdate(10, Phase1Message), ProgressUpdate(45, Phase1DoneMessage),
          ProgressUpdate(50, Phase2Message), FailedUpdate(CallResearch(world.phase2).message)]
  {
    UpdatesOfRun(jobId, config, world);
    UpdatesPhase2(jobId, config, world, GetJob(world.fetch).value.value);
  }

  /** A run in which nothing throws: the whole schedule, the persisted research, the completion. */
  lemma UpdatesWhenSucceeds(jobId: string, config: Config, world: World)
    requires Succeeds(world)
    ensures Updates(Run(jobId, config, world))
      == [RunningUpdate(), ProgressUpdate(10, Phase1Message), ProgressUpdate(45, Phase1DoneMessage),
          ProgressUpdate(50, Phase2Message), ProgressUpdate(85, CombiningMessage),
          PersistUpdate(PersistedReport(world), MergedCitations(world)),
          CompletedUpdate(|MergedCitations(world)|,
                          Summarise(config.summariserKey, world.summariser, world.jsonParse, |MergedCitations(world)|))]
  {
    var job := GetJob(world.fetch).value.value;
    var report, merged := PersistedReport(world), MergedCitations(world);
    UpdatesOfRun(jobId, config, world);
    UpdatesPersist(jobId, config, world, job, report, merged);
    UpdatesFinal(jobId, config, world, job, report, merged);
  }

  /** A job the store does not have gets no update at all, and the run stops after the fetch. */
  lemma SilentWhenJobMissing(jobId: string, config: Config, world: World)
    ensures GetJob(world.fetch) == Ok(None) <==> Updates(Run(jobId, config, world)) == []
    ensures GetJob(world.fetch) == Ok(None) ==> Run(jobId, config, world) == [Acknowledge(jobId), FetchJob(jobId)]
  {
    if GetJob(world.fetch) == Ok(None) {
      UpdatesOfRun(jobId, config, world);
      UpdatesOne(FetchJob(jobId));
    } else if FatalError(world).Some? {
      TerminalWhenFailed(jobId, config, world);
    } else {
      TerminalWhenSucceeds(jobId, config, world);
    }
  }

  /**
   * Once the job exists, or its fetch throws, the run ends with exactly one
   * terminal update: it is the last effect, and no update before it is
   * terminal.
   */
  lemma ExactlyOneTerminalUpdate(jobId: string, config: Config, world: World)
    requires GetJob(world.fetch) != Ok(None)
    ensures var t := Run(jobId, config, world);
      var us := Updates(t);
      && OneTerminalAtEnd(us)
      && t[|t| - 1].UpdateJob? && t[|t| - 1].update == us[|us| - 1]
  {
    LastEffectOfRun(jobId, config, world);
    if FatalError(world).Some? {
      TerminalWhenFailed(jobId, config, world);
    } else {
      TerminalWhenSucceeds(jobId, config, world);
    }
  }

  /** A run with a fatal error ends with its one terminal update, `failed` with that error. */
  lemma TerminalWhenFailed(jobId: string, config: Config, world: World)
    requires FatalError(world).Some?
    ensures var us := Updates(Run(jobId, config, world));
      OneTerminalAtEnd(us) && us[|us| - 1] == FailedUpdate(FatalError(world).value)
  {
    var failed := FailedUpdate(FatalError(world).value);
    var running := [RunningUpdate(), ProgressUpdate(10, Phase1Message)];
    var researched := running + [ProgressUpdate(45, Phase1DoneMessage), ProgressUpdate(50, Phase2Message)];
    var prefix;
    if GetJob(world.fetch).Err? {
      UpdatesWhenFetchFails(jobId, config, world);
      prefix := [];
    } else if CallResearch(world.phase1).Err? {
      UpdatesWhenPhase1Fails(jobId, config, world);
      prefix := running;
    } else {
      UpdatesWhenPhase2Fails(jobId, config, world);
      prefix := researched;
    }
    assert Updates(Run(jobId, config, world)) == prefix + [failed];
    TerminalAfterProgress(prefix, failed);
  }

  /** A successful run ends with its one terminal update, `completed`. */
  lemma TerminalWhenSucceeds(jobId: string, config: Config, world: World)
    requires Succeeds(world)
    ensures var us := Updates(Run(jobId, config, world));
      var total := |MergedCitations(world)|;
      OneTerminalAtEnd(us)
      && us[|us| - 1] == CompletedUpdate(total, Summarise(config.summariserKey, world.summariser, world.jsonParse, total))
  {
    UpdatesWhenSucceeds(jobId, config, world);
    var total := |MergedCitations(world)|;
    var persisted := [RunningUpdate(), ProgressUpdate(10, Phase1Message), ProgressUpdate(45, Phase1DoneMessage),
                      ProgressUpdate(50, Phase2Message), ProgressUpdate(85, CombiningMessage),
                      PersistUpdate(PersistedReport(world), MergedCitations(world))];
    var completed := CompletedUpdate(total, Summarise(config.summariserKey, world.summariser, world.jsonParse, total));
    assert Updates(Run(jobId, config, world)) == persisted + [completed];
    TerminalAfterProgress(persisted, completed);
  }

  /** A list of updates ends with its one terminal update. */
  predicate OneTerminalAtEnd(us: seq<JobUpdate>) {
    && |us| > 0 && IsTerminal(us[|us| - 1])
    && forall i :: 0 <= i < |us| - 1 ==> !IsTerminal(us[i])
  }

  lemma TerminalAfterProgress(prefix: seq<JobUpdate>, last: JobUpdate)
    requires forall i :: 0 <= i < |prefix| ==> prefix[i].status != Some(Completed) && prefix[i].status != Some(Failed)
    requires IsTerminal(last)
    ensures OneTerminalAtEnd(prefix + [last])
  {
    assert forall i :: 0 <= i < |prefix| ==> (prefix + [last])[i] == prefix[i];
  }

  /** The last effect of a run whose job exists or whose fetch throws is its terminal update. */
  lemma LastEffectOfRun(jobId: string, config: Config, world: World)
    requires GetJob(world.fetch) != Ok(None)
    ensures var t := Run(jobId, config, world);
      && (FatalError(world).Some? ==> t[|t| - 1].UpdateJob? && t[|t| - 1].update == FailedUpdate(FatalError(world).value))
      && (Succeeds(world) ==>
            var total := |MergedCitations(world)|;
            t[|t| - 1].UpdateJob?
            && t[|t| - 1].update == CompletedUpdate(total, Summarise(config.summariserKey, world.summariser, world.jsonParse, total)))
  {
    var a := Attempt(jobId, config, world);
    var t := Run(jobId, config, world);
    if Succeeds(world) {
      var job := GetJob(world.fetch).value.value;
      RunWhenSucceeds(jobId, config, world);
      var report, merged := PersistedReport(world), MergedCitations(world);
      assert t == [Acknowledge(jobId)] + FinalEffects(jobId, config, world, job, report, merged);
    } else {
      assert a.thrown == FatalError(world);
      assert t == [Acknowledge(jobId)] + a.effects + [UpdateJob(jobId, FailedUpdate(a.thrown.value), world.storeOk(a.sent))];
    }
  }

  /**
   * The run ends `failed` with message `m` exactly when `m` is its first
   * fatal error, and `completed` exactly when the job exists and nothing
   * fatal happens.
   */
  lemma FailureRouting(jobId: string, config: Config, world: World, m: string)
    requires GetJob(world.fetch) != Ok(None)
    ensures var us := Updates(Run(jobId, config, world));
      && |us| > 0
      && (us[|us| - 1] == FailedUpdate(m) <==> FatalError(world) == Some(m))
      && (us[|us| - 1].status == Some(Completed) <==> Succeeds(world))
  {
    if FatalError(world).Some? {
      TerminalWhenFailed(jobId, config, world);
    } else {
      TerminalWhenSucceeds(jobId, config, world);
    }
  }

  lemma {:induction false} PrefixOfIncreasing(s: seq<nat>, t: seq<nat>)
    requires s <= t && StrictlyIncreasing(t)
    ensures StrictlyIncreasing(s)
  {
    forall i, j | 0 <= i < j < |s| ensures s[i] < s[j] {
      assert s[i] == t[i] && s[j] == t[j];
    }
  }

  lemma {:induction false} ProgressesAppend(a: seq<JobUpdate>, b: seq<JobUpdate>)
    ensures Progresses(a + b) == Progresses(a) + Progresses(b)
  {
    if a != [] {
      assert (a + b)[1..] == a[1..] + b;
      ProgressesAppend(a[1..], b);
    } else {
      assert a + b == b;
    }
  }

  /** Updates that all carry a progress value report them one for one. */
  lemma {:induction false} ProgressesAllSome(us: seq<JobUpdate>)
    requires forall i :: 0 <= i < |us| ==> us[i].progress.Some?
    ensures |Progresses(us)| == |us|
    ensures forall i :: 0 <= i < |us| ==> Progresses(us)[i] == us[i].progress.value
  {
    if us != [] {
      ProgressesAllSome(us[1..]);
    }
  }

  /** A failure report carries no progress value. */
  lemma ProgressesOfFailure(prefix: seq<JobUpdate>, m: string)
    ensures Progresses(prefix + [FailedUpdate(m)]) == Progresses(prefix)
  {
    ProgressesAppend(prefix, [FailedUpdate(m)]);
    assert [FailedUpdate(m)][1..] == [];
  }

  /** How many of the scheduled checkpoints a run reaches. */
  function Reached(world: World): (n: nat)
    ensures n <= |Schedule|
  {
    if !JobFound(world) then 0
    else if CallResearch(world.phase1).Err? then 2
    else if CallResearch(world.phase2).Err? then 4
    else 7
  }

  lemma ProgressesWhenFetchFails(jobId: string, config: Config, world: World)
    requires GetJob(world.fetch).Err?
    ensures Progresses(Updates(Run(jobId, config, world))) == []
  {
    UpdatesWhenFetchFails(jobId, config, world);
    ProgressesOfFailure([], GetJob(world.fetch).message);
    assert [] + [FailedUpdate(GetJob(world.fetch).message)] == Updates(Run(jobId, config, world));
  }

  lemma ProgressesWhenPhase1Fails(jobId: string, config: Config, world: World)
    requires JobFound(world) && CallResearch(world.phase1).Err?
    ensures Progresses(Updates(Run(jobId, config, world))) == [5, 10]
  {
    UpdatesWhenPhase1Fails(jobId, config, world);
    var prefix := [RunningUpdate(), ProgressUpdate(10, Phase1Message)];
    assert Updates(Run(jobId, config, world)) == prefix + [FailedUpdate(CallResearch(world.phase1).message)];
    ProgressesOfFailure(prefix, CallResearch(world.phase1).message);
    ProgressesAllSome(prefix);
  }

  lemma ProgressesWhenPhase2Fails(jobId: string, config: Config, world: World)
    requires JobFound(world) && CallResearch(world.phase1).Ok? && CallResearch(world.phase2).Err?
    ensures Progresses(Updates(Run(jobId, config, world))) == [5, 10, 45, 50]
  {
    UpdatesWhenPhase2Fails(jobId, config, world);
    var prefix := [RunningUpdate(), ProgressUpdate(10, Phase1Message), ProgressUpdate(45, Phase1DoneMessage),
                   ProgressUpdate(50, Phase2Message)];
    assert Updates(Run(jobId, config, world)) == prefix + [FailedUpdate(CallResearch(world.phase2).message)];
    ProgressesOfFailure(prefix, CallResearch(world.phase2).message);
    ProgressesAllSome(prefix);
  }

  lemma ProgressesWhenSucceeds(jobId: string, config: Config, world: World)
    requires Succeeds(world)
    ensures Progresses(Updates(Run(jobId, config, world))) == Schedule
  {
    UpdatesWhenSucceeds(jobId, config, world);
    ProgressesAllSome(Updates(Run(jobId, config, world)));
  }

  /** The progress values a run reports are the schedule, cut where the run stops. */
  lemma ProgressesReached(jobId: string, config: Config, world: World)
    ensures Progresses(Updates(Run(jobId, config, world))) == Schedule[..Reached(world)]
  {
    if GetJob(world.fetch).Err? {
      ProgressesWhenFetchFails(jobId, config, world);
    } else if !JobFound(world) {
      SilentWhenJobMissing(jobId, config, world);
    } else if CallResearch(world.phase1).Err? {
      ProgressesWhenPhase1Fails(jobId, config, world);
      assert Schedule[..2] == [5, 10];
    } else if CallResearch(world.phase2).Err? {
      ProgressesWhenPhase2Fails(jobId, config, world);
      assert Schedule[..4] == [5, 10, 45, 50];
    } else {
      ProgressesWhenSucceeds(jobId, config, world);
      assert Schedule[..7] == Schedule;
    }
  }

  /**
   * The progress values a run reports are the fixed schedule
   * 5, 10, 45, 50, 85, 95, 100 as far as the run gets, so they strictly
   * increase; the whole schedule is reported exactly when the run succeeds.
   */
  lemma ProgressFollowsSchedule(jobId: string, config: Config, world: World)
    ensures Progresses(Updates(Run(jobId, config, world))) == Schedule[..Reached(world)]
    ensures Progresses(Updates(Run(jobId, config, world))) == Schedule <==> Succeeds(world)
    ensures StrictlyIncreasing(Progresses(Updates(Run(jobId, config, world))))
  {
    ProgressesReached(jobId, config, world);
    var n := Reached(world);
    assert n == 7 <==> Succeeds(world);
    assert Schedule[..n] == Schedule <==> n == 7 by {
      if n < 7 {
        assert |Schedule[..n]| != |Schedule|;
      }
    }
    PrefixOfIncreasing(Schedule[..n], Schedule);
  }

  /** The effects up to the persisted research hold no call to the summariser. */
  lemma NoSummaryBeforePersist(jobId: string, config: Config, world: World, job: Job, report: string, merged: seq<string>)
    ensures var p := PersistEffects(jobId, config, world, job, report, merged);
      |p| == 9 && p[8].UpdateJob? && p[8].update == PersistUpdate(report, merged)
      && forall i :: 0 <= i < |p| ==> !p[i].AskSummariser?
  {
  }

  /**
   * In a successful run the report and the merged citations are written at
   * progress 95, before any call to the summariser.
   */
  lemma ResearchPersistedBeforeSummary(jobId: string, config: Config, world: World)
    requires Succeeds(world)
    ensures var t := Run(jobId, config, world);
      exists k :: 0 <= k < |t| && t[k].UpdateJob?
        && t[k].update == PersistUpdate(PersistedReport(world), MergedCitations(world))
        && forall j :: 0 <= j < |t| && t[j].AskSummariser? ==> k < j
  {
    var job := GetJob(world.fetch).value.value;
    var report, merged := PersistedReport(world), MergedCitations(world);
    var t := Run(jobId, config, world);
    RunWhenSucceeds(jobId, config, world);
    var persisted := PersistEffects(jobId, config, world, job, report, merged);
    var rest := FinalEffects(jobId, config, world, job, report, merged)[|persisted|..];
    NoSummaryBeforePersist(jobId, config, world, job, report, merged);
    assert t == ([Acknowledge(jobId)] + persisted) + rest;
    assert t[9] == persisted[8];
    assert forall j :: 0 <= j < |t| && t[j].AskSummariser? ==> 9 < j;
  }

  /**
   * The completion message, the report's totals line and its closing
   * citation heading all give the merged list's length; the totals line
   * follows the title, product and niche lines, and the report ends with
   * the numbered listing of the merged list.
   */
  lemma CompletionCountsMergedCitations(jobId: string, config: Config, world: World)
    requires Succeeds(world)
    ensures var us := Updates(Run(jobId, config, world));
      |us| > 0 && us[|us| - 1].stageMessage == Some(CompletionMessage(|MergedCitations(world)|))
    ensures var job := GetJob(world.fetch).value.value;
      OccursAt(PersistedReport(world), TotalSourcesLine(|MergedCitations(world)|), |SummaryHead(job.productName, job.niche)|)
    ensures var report, block := PersistedReport(world), CitationsHeading(|MergedCitations(world)|) + Listing(MergedCitations(world)) + "\n";
      |block| <= |report| && report[|report| - |block|..] == block
  {
    UpdatesWhenSucceeds(jobId, config, world);
    var job := GetJob(world.fetch).value.value;
    var r1, r2 := CallResearch(world.phase1).value, CallResearch(world.phase2).value;
    ReportCountsMergedCitations(job.productName, job.niche, r1.content, r1.citations, r2.content, r2.citations,
                                MergedCitations(world));
  }

  /**
   * Summarisation never fails the job: whatever the summariser does, and
   * whether or not its key is set, a run whose research succeeded ends
   * `completed`; without the key, or when the summariser's reply is not ok,
   * the parsed research is null; an object it yields records the merged
   * list's length as `total_citations`.
   */
  lemma SummaryIsBestEffort(jobId: string, config: Config, world: World)
    requires Succeeds(world)
    ensures var us := Updates(Run(jobId, config, world));
      && |us| > 0
      && var final := us[|us| - 1];
      && final.status == Some(Completed) && final.progress == Some(100)
      && final.parsedResearch.Some?
      && ((!config.summariserKey || world.summariser.Thrown? || !IsOk(world.summariser.status))
            ==> final.parsedResearch == Some(JNull))
      && (final.parsedResearch.value.JObject? ==>
            && "total_citations" in final.parsedResearch.value.fields
            && final.parsedResearch.value.fields["total_citations"] == JNumber(|MergedCitations(world)|))
  {
    UpdatesWhenSucceeds(jobId, config, world);
  }

  /** The effect with the store's answer left out: what the worker sends. */
  function Request(e: Effect): Effect {
    if e.UpdateJob? then e.(storeOk := true) else e
  }

  /** What the worker sends over a whole trace. */
  function Requests(t: seq<Effect>): (r: seq<Effect>)
    ensures |r| == |t| && forall i :: 0 <= i < |t| ==> r[i] == Request(t[i])
  {
    seq(|t|, i requires 0 <= i < |t| => Request(t[i]))
  }

  lemma RequestsAppend(a: seq<Effect>, b: seq<Effect>)
    ensures Requests(a + b) == Requests(a) + Requests(b)
  {
  }

  /** The store's answers change nothing the worker sends up to the first research call. */
  lemma RequestsPhase1(jobId: string, config: Config, world: World, answers: nat -> bool, job: Job)
    ensures Requests(Phase1Effects(jobId, config, world, job))
         == Requests(Phase1Effects(jobId, config, world.(storeOk := answers), job))
  {
  }

  lemma RequestsPhase2(jobId: string, config: Config, world: World, answers: nat -> bool, job: Job)
    ensures Requests(Phase2Effects(jobId, config, world, job))
         == Requests(Phase2Effects(jobId, config, world.(storeOk := answers), job))
  {
    var p, q := Phase2Effects(jobId, config, world, job), Phase2Effects(jobId, config, world.(storeOk := answers), job);
    assert |p| == |q| == 7;
    forall i | 0 <= i < 7
      ensures Request(p[i]) == Request(q[i])
    {
    }
  }

  lemma RequestsPersist(jobId: string, config: Config, world: World, answers: nat -> bool, job: Job, report: string, merged: seq<string>)
    ensures Requests(PersistEffects(jobId, config, world, job, report, merged))
         == Requests(PersistEffects(jobId, config, world.(storeOk := answers), job, report, merged))
  {
    var other := world.(storeOk := answers);
    var update := PersistUpdate(report, merged);
    var p := Phase2Effects(jobId, config, world, job)
      + [UpdateJob(jobId, ProgressUpdate(85, CombiningMessage), world.storeOk(4)), UpdateJob(jobId, update, world.storeOk(5))];
    var q := Phase2Effects(jobId, config, other, job)
      + [UpdateJob(jobId, ProgressUpdate(85, CombiningMessage), answers(4)), UpdateJob(jobId, update, answers(5))];
    assert PersistEffects(jobId, config, world, job, report, merged) == p;
    assert PersistEffects(jobId, config, other, job, report, merged) == q;
    RequestsPhase2(jobId, config, world, answers, job);
    forall i | 7 <= i < 9
      ensures Request(p[i]) == Request(q[i])
    {
    }
  }

  lemma RequestsFinal(jobId: string, config: Config, world: World, answers: nat -> bool, job: Job, report: string, merged: seq<string>)
    ensures var other := world.(storeOk := answers);
      Requests(FinalEffects(jobId, config, world, job, report, merged)) == Requests(FinalEffects(jobId, config, other, job, report, merged))
  {
    var other := world.(storeOk := answers);
    var total := |merged|;
    var summarised := if config.summariserKey then [AskSummariser(report)] else [];
    var completed := UpdateJob(jobId, CompletedUpdate(total, Summarise(config.summariserKey, world.summariser, world.jsonParse, total)), true);
    RequestsPersist(jobId, config, world, answers, job, report, merged);
    RequestsAppend(PersistEffects(jobId, config, world, job, report, merged) + summarised, [completed.(storeOk := world.storeOk(6))]);
    RequestsAppend(PersistEffects(jobId, config, other, job, report, merged) + summarised, [completed.(storeOk := answers(6))]);
    RequestsAppend(PersistEffects(jobId, config, world, job, report, merged), summarised);
    RequestsAppend(PersistEffects(jobId, config, other, job, report, merged), summarised);
  }

  /** The `try` block sends the same requests and throws the same error whatever the store answers. */
  lemma AttemptIgnoresAnswers(jobId: string, config: Config, world: World, answers: nat -> bool)
    ensures var a, b := Attempt(jobId, config, world), Attempt(jobId, config, world.(storeOk := answers));
      a.thrown == b.thrown && a.sent == b.sent && Requests(a.effects) == Requests(b.effects)
  {
    var other := world.(storeOk := answers);
    assert other.fetch == world.fetch && other.phase1 == world.phase1 && other.phase2 == world.phase2;
    if JobFound(world) {
      var job := GetJob(world.fetch).value.value;
      if CallResearch(world.phase1).Err? {
        assert Attempt(jobId, config, world).effects == Phase1Effects(jobId, config, world, job);
        assert Attempt(jobId, config, other).effects == Phase1Effects(jobId, config, other, job);
        RequestsPhase1(jobId, config, world, answers, job);
      } else if CallResearch(world.phase2).Err? {
        assert Attempt(jobId, config, world).effects == Phase2Effects(jobId, config, world, job);
        assert Attempt(jobId, config, other).effects == Phase2Effects(jobId, config, other, job);
        RequestsPhase2(jobId, config, world, answers, job);
      } else {
        var report, merged := PersistedReport(world), MergedCitations(world);
        RunWhenSucceeds(jobId, config, world);
        RunWhenSucceeds(jobId, config, other);
        RequestsFinal(jobId, config, world, answers, job, report, merged);
      }
    }
  }

  /**
   * The store's answers to the updates are only logged: whatever they are,
   * the run sends the same requests in the same order.
   */
  lemma StoreAnswersOnlyLogged(jobId: string, config: Config, world: World, answers: nat -> bool)
    ensures Requests(Run(jobId, config, world)) == Requests(Run(jobId, config, world.(storeOk := answers)))
  {
    var other := world.(storeOk := answers);
    var a, b := Attempt(jobId, config, world), Attempt(jobId, config, other);
    AttemptIgnoresAnswers(jobId, config, world, answers);
    var tailA := match a.thrown
      case Some(m) => [UpdateJob(jobId, FailedUpdate(m), world.storeOk(a.sent))]
      case None => [];
    var tailB := match b.thrown
      case Some(m) => [UpdateJob(jobId, FailedUpdate(m), answers(b.sent))]
      case None => [];
    assert Run(jobId, config, world) == [Acknowledge(jobId)] + a.effects + tailA;
    assert Run(jobId, config, other) == [Acknowledge(jobId)] + b.effects + tailB;
    RequestsAppend([Acknowledge(jobId)] + a.effects, tailA);
    RequestsAppend([Acknowledge(jobId)] + b.effects, tailB);
    RequestsAppend([Acknowledge(jobId)], a.effects);
    RequestsAppend([Acknowledge(jobId)], b.effects);
  }

  /** The calls a trace makes to the research service and the summariser, in order. */
  function Calls(t: seq<Effect>): seq<Effect> {
    if t == [] then []
    else Called(t[0]) + Calls(t[1..])
  }

  /** The effect as a call to an external service, if it is one. */
  function Called(e: Effect): seq<Effect> {
    if e.AskResearch? || e.AskSummariser? then [e] else []
  }

  lemma {:induction false} CallsAppend(a: seq<Effect>, b: seq<Effect>)
    ensures Calls(a + b) == Calls(a) + Calls(b)
  {
    if a != [] {
      assert (a + b)[1..] == a[1..] + b;
      CallsAppend(a[1..], b);
    } else {
      assert a + b == b;
    }
  }

  lemma CallsCons(e: Effect, t: seq<Effect>)
    ensures Calls([e] + t) == Called(e) + Calls(t)
  {
    assert ([e] + t)[1..] == t;
  }

  lemma CallsOne(e: Effect)
    ensures Calls([e]) == Called(e)
  {
    assert [e][1..] == [];
  }

  /** Up to the first research call, that call is the only one. */
  lemma CallsPhase1(jobId: string, config: Config, world: World, job: Job)
    ensures Calls(Phase1Effects(jobId, config, world, job)) == [AskResearch(PromptFor(config.phase1Template, job))]
  {
    var p := Phase1Effects(jobId, config, world, job);
    assert p == [p[0]] + ([p[1]] + ([p[2]] + [p[3]]));
    CallsCons(p[0], [p[1]] + ([p[2]] + [p[3]]));
    CallsCons(p[1], [p[2]] + [p[3]]);
    CallsCons(p[2], [p[3]]);
    CallsOne(p[3]);
  }

  /** Up to the second research call: the first phase's call, then the second's. */
  lemma CallsPhase2(jobId: string, config: Config, world: World, job: Job)
    ensures Calls(Phase2Effects(jobId, config, world, job))
      == [AskResearch(PromptFor(config.phase1Template, job)), AskResearch(PromptFor(config.phase2Template, job))]
  {
    var p1 := Phase1Effects(jobId, config, world, job);
    var more := Phase2Effects(jobId, config, world, job)[|p1|..];
    assert Phase2Effects(jobId, config, world, job) == p1 + more;
    CallsAppend(p1, more);
    CallsPhase1(jobId, config, world, job);
    assert more == [more[0]] + ([more[1]] + [more[2]]);
    CallsCons(more[0], [more[1]] + [more[2]]);
    CallsCons(more[1], [more[2]]);
    CallsOne(more[2]);
  }

  /** Persisting the research makes no further call. */
  lemma CallsPersist(jobId: string, config: Config, world: World, job: Job, report: string, merged: seq<string>)
    ensures Calls(PersistEffects(jobId, config, world, job, report, merged)) == Calls(Phase2Effects(jobId, config, world, job))
  {
    var p2 := Phase2Effects(jobId, config, world, job);
    var more := PersistEffects(jobId, config, world, job, report, merged)[|p2|..];
    assert PersistEffects(jobId, config, world, job, report, merged) == p2 + more;
    CallsAppend(p2, more);
    assert more == [more[0]] + [more[1]];
    CallsCons(more[0], [more[1]]);
    CallsOne(more[1]);
  }

  /** After the persist, the summariser is called once when its key is set, and nothing else is. */
  lemma CallsFinal(jobId: string, config: Config, world: World, job: Job, report: string, merged: seq<string>)
    ensures Calls(FinalEffects(jobId, config, world, job, report, merged))
      == Calls(PersistEffects(jobId, config, world, job, report, merged))
         + (if config.summariserKey then [AskSummariser(report)] else [])
  {
    var total := |merged|;
    var persisted := PersistEffects(jobId, config, world, job, report, merged);
    var summarised := if config.summariserKey then [AskSummariser(report)] else [];
    var completed := [UpdateJob(jobId, CompletedUpdate(total, Summarise(config.summariserKey, world.summariser, world.jsonParse, total)),
                                world.storeOk(6))];
    assert FinalEffects(jobId, config, world, job, report, merged) == persisted + summarised + completed;
    CallsAppend(persisted + summarised, completed);
    CallsAppend(persisted, summarised);
    CallsOne(completed[0]);
    if config.summariserKey {
      CallsOne(summarised[0]);
    } else {
      assert Calls(summarised) == [];
    }
  }

  /** A run's calls are those of its `try` block: the acknowledgement and the failure report are not calls. */
  lemma CallsOfRun(jobId: string, config: Config, world: World)
    ensures Calls(Run(jobId, config, world)) == Calls(Attempt(jobId, config, world).effects)
  {
    var a := Attempt(jobId, config, world);
    var tail := match a.thrown
      case Some(m) => [UpdateJob(jobId, FailedUpdate(m), world.storeOk(a.sent))]
      case None => [];
    assert Run(jobId, config, world) == [Acknowledge(jobId)] + (a.effects + tail);
    CallsCons(Acknowledge(jobId), a.effects + tail);
    CallsAppend(a.effects, tail);
    if a.thrown.Some? {
      CallsOne(tail[0]);
    } else {
      assert Calls(tail) == [];
    }
  }

  /** Without a job to work on, the run calls no external service. */
  lemma CallsWhenNoJob(jobId: string, config: Config, world: World)
    requires !JobFound(world)
    ensures Calls(Run(jobId, config, world)) == []
  {
    CallsOfRun(jobId, config, world);
    CallsOne(FetchJob(jobId));
  }

  /** A first research call that throws is the only call: no retry, no second phase, no summary. */
  lemma CallsWhenPhase1Fails(jobId: string, config: Config, world: World)
    requires JobFound(world) && CallResearch(world.phase1).Err?
    ensures Calls(Run(jobId, config, world)) == [AskResearch(PromptFor(config.phase1Template, GetJob(world.fetch).value.value))]
  {
    CallsOfRun(jobId, config, world);
    CallsPhase1(jobId, config, world, GetJob(world.fetch).value.value);
  }

  /** A second research call that throws ends the calls: each phase is asked once, and no summary. */
  lemma CallsWhenPhase2Fails(jobId: string, config: Config, world: World)
    requires JobFound(world) && CallResearch(world.phase1).Ok? && CallResearch(world.phase2).Err?
    ensures var job := GetJob(world.fetch).value.value;
      Calls(Run(jobId, config, world))
      == [AskResearch(PromptFor(config.phase1Template, job)), AskResearch(PromptFor(config.phase2Template, job))]
  {
    CallsOfRun(jobId, config, world);
    CallsPhase2(jobId, config, world, GetJob(world.fetch).value.value);
  }

  /**
   * A run in which nothing throws asks each research phase once, in order,
   * and then the summariser once exactly when its key is set.
   */
  lemma CallsWhenSucceeds(jobId: string, config: Config, world: World)
    requires Succeeds(world)
    ensures var job := GetJob(world.fetch).value.value;
      Calls(Run(jobId, config, world))
      == [AskResearch(PromptFor(config.phase1Template, job)), AskResearch(PromptFor(config.phase2Template, job))]
         + (if config.summariserKey then [AskSummariser(PersistedReport(world))] else [])
  {
    var job := GetJob(world.fetch).value.value;
    var report, merged := PersistedReport(world), MergedCitations(world);
    CallsOfRun(jobId, config, world);
    CallsFinal(jobId, config, world, job, report, merged);
    CallsPersist(jobId, config, world, job, report, merged);
    CallsPhase2(jobId, config, world, job);
  }

  /** A fetch that throws: the worker sends the fetch and then only the failure report. */
  lemma RequestsWhenFetchFails(jobId: string, config: Config, world: World)
    requires GetJob(world.fetch).Err?
    ensures Requests(Run(jobId, config, world))
      == [Acknowledge(jobId), FetchJob(jobId), UpdateJob(jobId, FailedUpdate(GetJob(world.fetch).message), true)]
  {
    var t := Run(jobId, config, world);
    assert t == [Acknowledge(jobId), FetchJob(jobId), UpdateJob(jobId, FailedUpdate(GetJob(world.fetch).message), world.storeOk(0))];
  }

  /**
   * A first research call that throws: the call is sent right after the
   * `running` update and progress 10, and the failure report right after it.
   */
  lemma RequestsWhenPhase1Fails(jobId: string, config: Config, world: World)
    requires JobFound(world) && CallResearch(world.phase1).Err?
    ensures var job := GetJob(world.fetch).value.value;
      Requests(Run(jobId, config, world))
      == [Acknowledge(jobId), FetchJob(jobId),
          UpdateJob(jobId, RunningUpdate(), true), UpdateJob(jobId, ProgressUpdate(10, Phase1Message), true),
          AskResearch(PromptFor(config.phase1Template, job)),
          UpdateJob(jobId, FailedUpdate(CallResearch(world.phase1).message), true)]
  {
    var job := GetJob(world.fetch).value.value;
    var t := Run(jobId, config, world);
    assert t == [Acknowledge(jobId)] + Phase1Effects(jobId, config, world, job)
                + [UpdateJob(jobId, FailedUpdate(CallResearch(world.phase1).message), world.storeOk(2))];
  }

  /**
   * A second research call that throws: the call is sent right after
   * progress 45 and 50, and the failure report right after it.
   */
  lemma RequestsWhenPhase2Fails(jobId: string, config: Config, world: World)
    requires JobFound(world) && CallResearch(world.phase1).Ok? && CallResearch(world.phase2).Err?
    ensures var job := GetJob(world.fetch).value.value;
      Requests(Run(jobId, config, world))
      == [Acknowledge(jobId), FetchJob(jobId),
          UpdateJob(jobId, RunningUpdate(), true), UpdateJob(jobId, ProgressUpdate(10, Phase1Message), true),
          AskResearch(PromptFor(config.phase1Template, job)),
          UpdateJob(jobId, ProgressUpdate(45, Phase1DoneMessage), true), UpdateJob(jobId, ProgressUpdate(50, Phase2Message), true),
          AskResearch(PromptFor(config.phase2Template, job)),
          UpdateJob(jobId, FailedUpdate(CallResearch(world.phase2).message), true)]
  {
    var job := GetJob(world.fetch).value.value;
    var t := Run(jobId, config, world);
    assert t == [Acknowledge(jobId)] + Phase2Effects(jobId, config, world, job)
                + [UpdateJob(jobId, FailedUpdate(CallResearch(world.phase2).message), world.storeOk(4))];
  }

  /** What the worker sends from the acknowledgement up to the persisted research. */
  lemma RequestsUpToPersist(jobId: string, config: Config, world: World, job: Job, report: string, merged: seq<string>)
    ensures Requests([Acknowledge(jobId)] + PersistEffects(jobId, config, world, job, report, merged))
      == [Acknowledge(jobId), FetchJob(jobId),
          UpdateJob(jobId, RunningUpdate(), true), UpdateJob(jobId, ProgressUpdate(10, Phase1Message), true),
          AskResearch(PromptFor(config.phase1Template, job)),
          UpdateJob(jobId, ProgressUpdate(45, Phase1DoneMessage), true), UpdateJob(jobId, ProgressUpdate(50, Phase2Message), true),
          AskResearch(PromptFor(config.phase2Template, job)),
          UpdateJob(jobId, ProgressUpdate(85, CombiningMessage), true),
          UpdateJob(jobId, PersistUpdate(report, merged), true)]
  {
  }

  /**
   * A run in which nothing throws: both research calls in place, the
   * persist at 95, the summariser call after it exactly when its key is set,
   * and the completion last.
   */
  lemma RequestsWhenSucceeds(jobId: string, config: Config, world: World)
    requires Succeeds(world)
    ensures var job := GetJob(world.fetch).value.value;
      var total := |MergedCitations(world)|;
      Requests(Run(jobId, config, world))
      == [Acknowledge(jobId), FetchJob(jobId),
          UpdateJob(jobId, RunningUpdate(), true), UpdateJob(jobId, ProgressUpdate(10, Phase1Message), true),
          AskResearch(PromptFor(config.phase1Template, job)),
          UpdateJob(jobId, ProgressUpdate(45, Phase1DoneMessage), true), UpdateJob(jobId, ProgressUpdate(50, Phase2Message), true),
          AskResearch(PromptFor(config.phase2Template, job)),
          UpdateJob(jobId, ProgressUpdate(85, CombiningMessage), true),
          UpdateJob(jobId, PersistUpdate(PersistedReport(world), MergedCitations(world)), true)]
         + (if config.summariserKey then [AskSummariser(PersistedReport(world))] else [])
         + [UpdateJob(jobId, CompletedUpdate(total, Summarise(config.summariserKey, world.summariser, world.jsonParse, total)), true)]
  {
    var job := GetJob(world.fetch).value.value;
    var report, merged := PersistedReport(world), MergedCitations(world);
    var total := |MergedCitations(world)|;
    var head := [Acknowledge(jobId)] + PersistEffects(jobId, config, world, job, report, merged);
    RequestsUpToPersist(jobId, config, world, job, report, merged);
    RunWhenSucceeds(jobId, config, world);
    var summarised := if config.summariserKey then [AskSummariser(PersistedReport(world))] else [];
    var completed := [UpdateJob(jobId, CompletedUpdate(total, Summarise(config.summariserKey, world.summariser, world.jsonParse, total)),
                                world.storeOk(6))];
    assert Run(jobId, config, world) == head + summarised + completed;
    RequestsAppend(head + summarised, completed);
    RequestsAppend(head, summarised);
  }
}
