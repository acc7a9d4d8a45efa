/**
 * What SimpleCmdScan does, as functions of its configuration and of an
 * environment that stands for the scanner driver and the operator.
 *
 * The driver's and operator's replies are scripts indexed by how many
 * capture calls and prompts have happened so far. The observable record
 * (Obs) holds the scanner handle, the log of driver-session and create_pdf
 * calls, the PDF writes made, and the two script cursors.
 */
module Acquisition {
  import opened Base
  import opened Options
  import opened Jobs

  const MAX_SCANS: nat := 10000
  const RET_OK: int := 0
  const RET_ERR: int := 1
  const RET_NO_SCANNER: int := 2

  /** The driver's message for a paper jam, the one error reported to the operator. */
  const JAM_MESSAGE: string := "Document feeder jammed"

  /** One entry of the driver's device list: id, vendor, model, type. */
  datatype Device = Device(id: string, vendor: string, model: string, kind: string)

  /** How opening and configuring the chosen device goes. */
  datatype OpenResult =
    | Opens           // sane.open and every setter succeed
    | OpenFails       // sane.open raises
    | ConfigureFails  // sane.open succeeds, a later setter raises

  /** An exception during capture: the driver's own error type or any other one. */
  datatype Error = SaneError(message: string) | OtherError

  /** One flatbed capture: scanner.scan() plus saving the page, or the exception it raises. */
  datatype Shot = Captured | ShotFailed(error: Error)

  /** One feeder run: the frames multi_scan() yields, then how the iteration ends (None: exhausted). */
  datatype Feed = Feed(frames: nat, stop: Option<Error>)

  /** The operator at a prompt: Enter, or end-of-input (CTRL+D). */
  datatype Answer = Continue | Abort

  /** Everything outside the program: devices, driver replies, operator replies, locale. */
  datatype Env = Env(
    devices: seq<Device>,
    openResult: OpenResult,
    shots: nat -> Shot,
    feeds: nat -> Feed,
    answers: nat -> Answer,
    lcPaper: Option<string>,
    processLocale: Option<string>)

  /** What open_scanner applies to a session. */
  datatype Settings = Settings(resolution: int, mode: Option<string>, paper: PaperSize, adfSource: bool)

  /** An open driver session; `settings` is None when configuring it raised. */
  datatype Session = Session(device: string, settings: Option<Settings>)

  /** Calls with an effect outside the program, in order. */
  datatype Event =
    | OpenDevice(device: string)         // sane.open(device)
    | Closed(released: Option<Session>)  // close_scanner(), with the handle it released
    | PdfCall(pdf: Pdf)                  // ScanJob.create_pdf(suffix)

  datatype Obs = Obs(scanner: Option<Session>, log: seq<Event>, files: seq<Pdf>, captures: nat, prompts: nat)

  /** A return code with the record after the call. */
  datatype Step = Step(ret: int, obs: Obs)

  /** A capture pass: the job it returns with the record after it. */
  datatype Pass = Pass(job: JobState, obs: Obs)

  /** The acquisition loop: the job still pending when it ends, and the record. */
  datatype Run = Run(pending: Option<JobState>, obs: Obs)

  // ---------------------------------------------------------------------
  // opening and closing the scanner
  // ---------------------------------------------------------------------

  /** Python's truth test on an optional string. */
  predicate Given(s: Option<string>)
  {
    s.Some? && s.value != ""
  }

  /** The settings open_scanner applies: resolution, colour mode if set, paper bounds, ADF source. */
  function SessionSettings(cfg: Config, env: Env): Settings
  {
    Settings(cfg.resolutionDpi,
             if Given(cfg.colorMode) then cfg.colorMode else None,
             PAPER_SIZES[ChoosePaper(cfg.paperFormat, env.lcPaper, env.processLocale).key],
             cfg.adf)
  }

  /** The device open_scanner uses, None when no selector is set and none is found. */
  function ChosenDevice(cfg: Config, env: Env): Option<string>
  {
    if Given(cfg.scanDevice) then cfg.scanDevice
    else if env.devices == [] then None
    else Some(env.devices[0].id)
  }

  /** open_scanner. */
  function OpenSpec(cfg: Config, env: Env, o: Obs): Step
  {
    match ChosenDevice(cfg, env)
    case None => Step(RET_NO_SCANNER, o)
    case Some(device) =>
      var tried := o.(log := o.log + [OpenDevice(device)]);
      match env.openResult
      case OpenFails => Step(RET_ERR, tried)
      case ConfigureFails => Step(RET_ERR, tried.(scanner := Some(Session(device, None))))
      case Opens =>
        Step(RET_OK, tried.(scanner := Some(Session(device, Some(SessionSettings(cfg, env))))))
  }

  /** close_scanner: releases the handle if there is one; the driver is shut down every time. */
  function CloseSpec(o: Obs): Obs
  {
    o.(scanner := None, log := o.log + [Closed(o.scanner)])
  }

  // ---------------------------------------------------------------------
  // PDF output and prompts
  // ---------------------------------------------------------------------

  /** A create_pdf call on job `j`: logged always, a write made only when `j` has pages. */
  function EmitSpec(j: JobState, suffix: string, o: Obs): Obs
  {
    var doc := Document(j, suffix);
    o.(log := o.log + [PdfCall(doc)], files := if j.pages == [] then o.files else o.files + [doc])
  }

  /** One input() prompt: the answer is the next one in the operator's script. */
  function PromptSpec(o: Obs): Obs
  {
    o.(prompts := o.prompts + 1)
  }

  // ---------------------------------------------------------------------
  // capture passes
  // ---------------------------------------------------------------------

  function NewJob(cfg: Config, complete: bool): JobState
  {
    JobState([], complete, cfg.outputDir, cfg.outputFilename)
  }

  /** `[start, start + 1, ..., start + n - 1]`. */
  function Indices(start: nat, n: nat): (r: seq<nat>)
    ensures |r| == n
    ensures forall k :: 0 <= k < n ==> r[k] == start + k
  {
    if n == 0 then [] else Indices(start, n - 1) + [start + n - 1]
  }

  /**
   * _handle_sane_error, as the source intends it: the job is marked
   * incomplete and kept. (See HandleSaneErrorAsWritten for what the
   * source's code does with a message other than the jam message.)
   */
  function HandleSaneError(message: string, j: JobState): (r: JobState)
    ensures r.pages == j.pages && !r.complete && r.dir == j.dir && r.template == j.template
  {
    j.(complete := false)
  }

  /**
   * _handle_sane_error as written: for any message but the jam message it
   * calls `log.exception()` without the message argument Logger.exception
   * requires, so a TypeError replaces the driver error and no job is returned
   * (None).
   */
  function HandleSaneErrorAsWritten(message: string, j: JobState): (r: Option<JobState>)
    ensures r.Some? <==> message == JAM_MESSAGE
    ensures r.Some? ==> r.value.pages == j.pages && !r.value.complete
  {
    if message == JAM_MESSAGE then Some(j.(complete := false)) else None
  }

  /** The non-ADF branch of _run_one_sided_scan: one frame into the given job or a fresh complete one. */
  function FlatbedPass(cfg: Config, shot: Shot, job: Option<JobState>, offset: nat): JobState
  {
    var j := if job.Some? then job.value else NewJob(cfg, true);
    match shot
    case Captured => j.(pages := j.pages + [|j.pages| + offset + 1])
    case ShotFailed(SaneError(message)) => HandleSaneError(message, j)
    case ShotFailed(OtherError) => j.(complete := false)
  }

  /**
   * _run_multi_scan: a fresh job with the frames the feeder delivered,
   * complete only when the iteration ran to its end.
   */
  function FeederPass(cfg: Config, feed: Feed, offset: nat): JobState
  {
    var j := NewJob(cfg, false).(pages := Indices(offset, feed.frames));
    match feed.stop
    case None => j.(complete := true)
    case Some(SaneError(message)) => HandleSaneError(message, j)
    case Some(OtherError) => j
  }

  /** The job _run_one_sided_scan returns when it gets the `c`-th driver reply; under ADF the given job is ignored. */
  function PassJob(cfg: Config, env: Env, job: Option<JobState>, offset: nat, c: nat): JobState
  {
    if cfg.adf then FeederPass(cfg, env.feeds(c), offset) else FlatbedPass(cfg, env.shots(c), job, offset)
  }

  /** _run_one_sided_scan: one capture, answered by the next driver reply. */
  function PassSpec(cfg: Config, env: Env, job: Option<JobState>, offset: nat, o: Obs): Pass
  {
    Pass(PassJob(cfg, env, job, offset, o.captures), o.(captures := o.captures + 1))
  }

  // ---------------------------------------------------------------------
  // scan_single_sided
  // ---------------------------------------------------------------------

  predicate IsSplit(cfg: Config)
  {
    cfg.multidoc == Some("split")
  }

  /** The body of the pass loop from iteration `i` on, with the job pending at its start. */
  function LoopSpec(cfg: Config, env: Env, job: Option<JobState>, i: nat, o: Obs): Run
    decreases MAX_SCANS - i
  {
    if i >= MAX_SCANS then Run(job, o)
    else
      var p := PassSpec(cfg, env, job, 0, o);
      if cfg.multidoc.None? then Run(Some(p.job), p.obs)
      else
        var emitted := if IsSplit(cfg) then EmitSpec(p.job, "", p.obs) else p.obs;
        var pending := if IsSplit(cfg) then None else Some(p.job);
        var asked := PromptSpec(emitted);
        if env.answers(emitted.prompts) == Abort then Run(pending, asked)
        else LoopSpec(cfg, env, pending, i + 1, asked)
  }

  /** The job the loop starts with: an empty complete one in `join` mode, none otherwise. */
  function InitialJob(cfg: Config): Option<JobState>
  {
    if cfg.multidoc == Some("join") then Some(NewJob(cfg, true)) else None
  }

  /** scan_single_sided from the record `a` left by a successful open: the loop, the close, the pending job. */
  function SingleSidedAfterOpen(cfg: Config, env: Env, a: Obs): Step
  {
    var r := LoopSpec(cfg, env, InitialJob(cfg), 0, a);
    var closed := CloseSpec(r.obs);
    Step(RET_OK, if r.pending.Some? then EmitSpec(r.pending.value, "", closed) else closed)
  }

  /** scan_single_sided. */
  function SingleSidedSpec(cfg: Config, env: Env, o: Obs): Step
  {
    var attempt := OpenSpec(cfg, env, o);
    if attempt.ret != RET_OK then attempt else SingleSidedAfterOpen(cfg, env, attempt.obs)
  }

  // ---------------------------------------------------------------------
  // scan_double_sided and run
  // ---------------------------------------------------------------------

  /** scan_double_sided from the record `a` left by a successful open. */
  function DoubleSidedAfterOpen(cfg: Config, env: Env, a: Obs): Step
  {
    var front := PassSpec(cfg, env, None, 0, a);
    if !front.job.complete then
      Step(RET_ERR, CloseSpec(EmitSpec(front.job, "_front_partial", front.obs)))
    else
      var asked := PromptSpec(front.obs);
      if env.answers(front.obs.prompts) == Abort then
        Step(RET_ERR, CloseSpec(EmitSpec(front.job, "_front", asked)))
      else
        var back := PassSpec(cfg, env, None, |front.job.pages|, asked);
        if !back.job.complete then
          Step(RET_ERR, CloseSpec(EmitSpec(back.job, "_back_partial", EmitSpec(front.job, "_front", back.obs))))
        else
          var closed := CloseSpec(back.obs);
          if |front.job.pages| != |back.job.pages| then
            Step(RET_ERR, EmitSpec(back.job, "_back", EmitSpec(front.job, "_front", closed)))
          else
            Step(RET_OK, EmitSpec(MergeBack(front.job, back.job).value, "", closed))
  }

  /** scan_double_sided. */
  function DoubleSidedSpec(cfg: Config, env: Env, o: Obs): Step
  {
    var attempt := OpenSpec(cfg, env, o);
    if attempt.ret != RET_OK then attempt else DoubleSidedAfterOpen(cfg, env, attempt.obs)
  }

  /** run: list devices in find mode, otherwise scan one- or two-sided. */
  function RunSpec(cfg: Config, env: Env, o: Obs): Step
  {
    if cfg.findScanners then
      Step(if |env.devices| == 0 then RET_NO_SCANNER else RET_OK, o)
    else if cfg.doubleSided then DoubleSidedSpec(cfg, env, o)
    else SingleSidedSpec(cfg, env, o)
  }
}
