/**
 * One run of the `/process-research` handler (index.js:196-445) for a job id:
 * acknowledge the caller, fetch the job, run the two research phases, persist
 * the merged research, optionally summarise it, and end with exactly one
 * terminal update of the job record. Every call to an external service is
 * given its outcome in a `World`; the run is recorded as the sequence of
 * effects it issues, in order.
 */
module Jobs {
  import opened Wrappers
  import opened Strings
  import opened Http
  import opened Prompts
  import opened Citations
  import opened Report
  import opened Research
  import opened JsonSpan

  /** The job record as the store returns it; "" stands for every falsy text field. */
  datatype Job = Job(productName: string, productDescription: string, niche: string)

  /** The store's answer to get-research-job-internal: `data.job`, possibly null. */
  datatype JobBody = JobBody(job: Option<Job>)

  datatype Status = Running | Completed | Failed

  /**
   * A partial update of the job record, as sent to update-research-job.
   * `None` fields are not sent; `startedAt` and `completedAt` say that the
   * timestamp is set to the current time.
   */
  datatype JobUpdate = JobUpdate(
    status: Option<Status>,
    progress: Option<nat>,
    stageMessage: Option<string>,
    startedAt: bool,
    rawResearch: Option<string>,
    citations: Option<seq<string>>,
    parsedResearch: Option<Json>,
    errorMessage: Option<string>,
    completedAt: bool)

  const NoChange := JobUpdate(None, None, None, false, None, None, None, None, false)

  const InitMessage := "Initializing Prism Intelligence Engine..."
  const Phase1Message := "Phase 1: Extracting emotional drivers, pain points, and language patterns..."
  const Phase1DoneMessage := "Phase 1 complete. Starting Phase 2: Demographic profiling..."
  const Phase2Message := "Phase 2: Mapping demographics and psychographics to each segment..."
  const CombiningMessage := "Combining research phases and structuring insights..."
  const FinalisingMessage := "Finalizing research package..."

  function CompletionMessage(total: nat): string {
    "Prism Intelligence complete! " + NatToString(total) + " sources analyzed."
  }

  function RunningUpdate(): JobUpdate {
    NoChange.(status := Some(Running), progress := Some(5), stageMessage := Some(InitMessage), startedAt := true)
  }

  function ProgressUpdate(progress: nat, message: string): JobUpdate {
    NoChange.(progress := Some(progress), stageMessage := Some(message))
  }

  function PersistUpdate(report: string, merged: seq<string>): JobUpdate {
    NoChange.(progress := Some(95), stageMessage := Some(FinalisingMessage), rawResearch := Some(report), citations := Some(merged))
  }

  function CompletedUpdate(total: nat, parsed: Json): JobUpdate {
    NoChange.(status := Some(Completed), progress := Some(100), stageMessage := Some(CompletionMessage(total)),
              parsedResearch := Some(parsed), completedAt := true)
  }

  function FailedUpdate(message: string): JobUpdate {
    NoChange.(status := Some(Failed), errorMessage := Some(message), completedAt := true)
  }

  /** The effects a run issues, in order. */
  datatype Effect =
    | Acknowledge(jobId: string)          // res.json({ received: true, job_id })
    | FetchJob(jobId: string)             // getJob
    | UpdateJob(jobId: string, update: JobUpdate, storeOk: bool)
                                          // updateJob, with the store's `response.ok`
    | AskResearch(prompt: string)         // callPerplexity
    | AskSummariser(research: string)     // the summariser call, on a prompt embedding the research

  /** The worker's configuration: the two prompt templates and whether a summariser key is set. */
  datatype Config = Config(phase1Template: string, phase2Template: string, summariserKey: bool)

  /**
   * The outcomes of the external calls of one run. `jsonParse` is `JSON.parse`
   * (`None` when it throws); `storeOk(k)` is the store's `response.ok` for the
   * k-th update (counted from 0).
   */
  datatype World = World(
    fetch: Reply<JobBody>,
    phase1: Reply<ChatBody>,
    phase2: Reply<ChatBody>,
    summariser: Reply<ChatBody>,
    jsonParse: string -> Option<Json>,
    storeOk: nat -> bool)

  /** `getJob`: the job, null when the store has none; throws on a rejected call or a non-ok status. */
  function GetJob(reply: Reply<JobBody>): (r: Result<Option<Job>>)
    ensures r.Err? <==> reply.Thrown? || !IsOk(reply.status)
    ensures r.Ok? ==> r.value == reply.body.job
    ensures reply.Thrown? ==> r.message == reply.message
    ensures reply.Response? && r.Err? ==> r.message == "Failed to get job: " + NatToString(reply.status)
  {
    match reply
    case Thrown(message) => Err(message)
    case Response(status, _, body) =>
      if !IsOk(status) then Err("Failed to get job: " + NatToString(status)) else Ok(body.job)
  }

  /** `updateJob`: the update is sent; a non-ok answer is only logged, so the run goes on. */
  method SendUpdate(effects: seq<Effect>, sent: nat, jobId: string, update: JobUpdate, storeOk: nat -> bool)
    returns (effects': seq<Effect>, sent': nat)
    ensures effects' == effects + [UpdateJob(jobId, update, storeOk(sent))]
    ensures sent' == sent + 1
  {
    var ok := storeOk(sent);
    effects' := effects + [UpdateJob(jobId, update, ok)];
    sent' := sent + 1;
  }

  function PromptFor(template: string, job: Job): string {
    BuildPrompt(template, job.productName, job.niche, job.productDescription)
  }

  function ReportFor(job: Job, phase1: Findings, phase2: Findings): string {
    CombinedResearch(job.productName, job.niche, phase1.content, phase1.citations,
                     phase2.content, phase2.citations, Merge(phase1.citations, phase2.citations))
  }

  /**
   * What the `try` block does: the effects it issues, how many of them are
   * updates, and the message of the error it throws, if any.
   */
  datatype Attempted = Attempted(effects: seq<Effect>, sent: nat, thrown: Option<string>)

  function Attempt(jobId: string, config: Config, world: World): Attempted {
    match GetJob(world.fetch)
    case Err(m) => Attempted([FetchJob(jobId)], 0, Some(m))
    case Ok(None) => Attempted([FetchJob(jobId)], 0, None)
    case Ok(Some(job)) =>
      match CallResearch(world.phase1)
      case Err(m) => Attempted(Phase1Effects(jobId, config, world, job), 2, Some(m))
      case Ok(r1) =>
        match CallResearch(world.phase2)
        case Err(m) => Attempted(Phase2Effects(jobId, config, world, job), 4, Some(m))
        case Ok(r2) => Attempted(FinalEffects(jobId, config, world, job, ReportFor(job, r1, r2), Merge(r1.citations, r2.citations)), 7, None)
  }

  /** Up to the first research call: the fetch, the `running` update, progress 10, the call. */
  function Phase1Effects(jobId: string, config: Config, world: World, job: Job): seq<Effect> {
    [FetchJob(jobId),
     UpdateJob(jobId, RunningUpdate(), world.storeOk(0)),
     UpdateJob(jobId, ProgressUpdate(10, Phase1Message), world.storeOk(1)),
     AskResearch(PromptFor(config.phase1Template, job))]
  }

  /** Up to the second research call: progress 45, progress 50, the call. */
  function Phase2Effects(jobId: string, config: Config, world: World, job: Job): seq<Effect> {
    Phase1Effects(jobId, config, world, job) +
    [UpdateJob(jobId, ProgressUpdate(45, Phase1DoneMessage), world.storeOk(2)),
     UpdateJob(jobId, ProgressUpdate(50, Phase2Message), world.storeOk(3)),
     AskResearch(PromptFor(config.phase2Template, job))]
  }

  /** Up to the persisted research: progress 85, progress 95 with the report and the merged citations. */
  function PersistEffects(jobId: string, config: Config, world: World, job: Job, report: string, merged: seq<string>): seq<Effect> {
    Phase2Effects(jobId, config, world, job) +
    [UpdateJob(jobId, ProgressUpdate(85, CombiningMessage), world.storeOk(4)),
     UpdateJob(jobId, PersistUpdate(report, merged), world.storeOk(5))]
  }

  /** The whole `try` block of a run where no step throws, given its report and merged citations. */
  function FinalEffects(jobId: string, config: Config, world: World, job: Job, report: string, merged: seq<string>): seq<Effect> {
    var total := |merged|;
    PersistEffects(jobId, config, world, job, report, merged)
      + (if config.summariserKey then [AskSummariser(report)] else [])
      + [UpdateJob(jobId, CompletedUpdate(total, Summarise(config.summariserKey, world.summariser, world.jsonParse, total)),
                   world.storeOk(6))]
  }

  /** The whole run: the acknowledgement, the `try` block, and the `catch` block's failure report. */
  function Run(jobId: string, config: Config, world: World): (t: seq<Effect>)
    ensures |t| >= 2 && t[0] == Acknowledge(jobId) && t[1] == FetchJob(jobId)
  {
    var a := Attempt(jobId, config, world);
    [Acknowledge(jobId)] + a.effects
      + match a.thrown
        case Some(m) => [UpdateJob(jobId, FailedUpdate(m), world.storeOk(a.sent))]
        case None => []
  }

  /** The `try` block, step by step; it returns as soon as a step throws. */
  method RunAttempt(jobId: string, config: Config, world: World)
    returns (effects: seq<Effect>, sent: nat, thrown: Option<string>)
    ensures Attempted(effects, sent, thrown) == Attempt(jobId, config, world)
  {
    effects, sent, thrown := [FetchJob(jobId)], 0, None;
    var fetched := GetJob(world.fetch);
    if fetched.Err? {
      thrown := Some(fetched.message);
      return;
    }
    if fetched.value.None? {
      return;  // job not found: log and stop
    }
    var job := fetched.value.value;

    effects, sent := SendUpdate(effects, sent, jobId, RunningUpdate(), world.storeOk);
    effects, sent := SendUpdate(effects, sent, jobId, ProgressUpdate(10, Phase1Message), world.storeOk);
    effects := effects + [AskResearch(PromptFor(config.phase1Template, job))];
    assert effects == Phase1Effects(jobId, config, world, job);
    var phase1 := CallResearch(world.phase1);
    if phase1.Err? {
      thrown := Some(phase1.message);
      return;
    }

    effects, sent := SendUpdate(effects, sent, jobId, ProgressUpdate(45, Phase1DoneMessage), world.storeOk);
    effects, sent := SendUpdate(effects, sent, jobId, ProgressUpdate(50, Phase2Message), world.storeOk);
    effects := effects + [AskResearch(PromptFor(config.phase2Template, job))];
    assert effects == Phase2Effects(jobId, config, world, job);
    var phase2 := CallResearch(world.phase2);
    if phase2.Err? {
      thrown := Some(phase2.message);
      return;
    }

    effects, sent := SendUpdate(effects, sent, jobId, ProgressUpdate(85, CombiningMessage), world.storeOk);
    var merged := Merge(phase1.value.citations, phase2.value.citations);
    var report := ReportFor(job, phase1.value, phase2.value);
    effects, sent := SendUpdate(effects, sent, jobId, PersistUpdate(report, merged), world.storeOk);
    assert effects == PersistEffects(jobId, config, world, job, report, merged);

    var parsedResearch;
    effects, parsedResearch := SummariseStep(effects, report, |merged|, config.summariserKey, world);
    effects, sent := SendUpdate(effects, sent, jobId, CompletedUpdate(|merged|, parsedResearch), world.storeOk);
  }

  /**
   * The optional summarisation, with its own `try`: every failure leaves
   * `parsedResearch` null and lets the run go on.
   */
  method SummariseStep(effects: seq<Effect>, report: string, total: nat, keyPresent: bool, world: World)
    returns (effects': seq<Effect>, parsedResearch: Json)
    ensures effects' == effects + (if keyPresent then [AskSummariser(report)] else [])
    ensures parsedResearch == Summarise(keyPresent, world.summariser, world.jsonParse, total)
  {
    effects' := effects;
    parsedResearch := JNull;
    if keyPresent {
      effects' := effects' + [AskSummariser(report)];
      var reply := world.summariser;
      if reply.Response? && IsOk(reply.status) {
        var span := ExtractJsonSpan(ContentOf(reply.body));
        if span.Some? {
          var parsed := world.jsonParse(span.value);
          if parsed.Some? {
            parsedResearch := parsed.value;
            var withTotal := SetTotalCitations(parsedResearch, total);
            if withTotal.Some? {
              parsedResearch := withTotal.value;
            }
          }
        }
      }
    } else {
      assert effects' == effects + [];
    }
  }

  /** The handler: acknowledge first, run the `try` block, report a thrown error as a failed job. */
  method ProcessResearch(jobId: string, config: Config, world: World) returns (trace: seq<Effect>)
    ensures trace == Run(jobId, config, world)
  {
    trace := [Acknowledge(jobId)];
    var effects, sent, thrown := RunAttempt(jobId, config, world);
    trace := trace + effects;
    if thrown.Some? {
      trace := trace + [UpdateJob(jobId, FailedUpdate(thrown.value), world.storeOk(sent))];
    }
  }
}
