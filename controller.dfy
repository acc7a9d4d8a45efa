/**
 * SimpleCmdScan as an object: its configuration, the scanner handle it
 * updates in open_scanner and close_scanner, and the acquisition methods,
 * each proved to have the effect the matching function of Acquisition
 * describes. The driver and the operator are the object's `env`; what they
 * observe (session calls, create_pdf calls, PDF writes, replies consumed) is
 * kept in fields next to the handle.
 */
module Controller {
  import opened Base
  import opened Options
  import opened Jobs
  import opened Acquisition

  /** The value of an optional job object. */
  function JobOf(job: ScanJob?): Option<JobState>
    reads job
  {
    if job == null then None else Some(job.Value())
  }

  class SimpleCmdScan {
    const cfg: Config
    const env: Env
    var scanner: Option<Session>
    // what the driver, the operator and the file system have seen
    var log: seq<Event>
    var files: seq<Pdf>
    var captures: nat
    var prompts: nat

    function Observed(): Obs
      reads this
    {
      Obs(scanner, log, files, captures, prompts)
    }

    /** __init__: settings from the arguments; no handle yet. */
    constructor (args: Args, cwd: string, env: Env)
      ensures cfg == Configure(args, cwd) && this.env == env
      ensures Observed() == Obs(None, [], [], 0, 0)
    {
      cfg := Configure(args, cwd);
      this.env := env;
      scanner := None;
      log, files := [], [];
      captures, prompts := 0, 0;
    }

    /** open_scanner: choose the device, open it, apply the settings. */
    method OpenScanner() returns (ret: int)
      modifies this
      ensures Step(ret, Observed()) == OpenSpec(cfg, env, old(Observed()))
    {
      var device: string;
      if Given(cfg.scanDevice) {
        device := cfg.scanDevice.value;
      } else {
        var devices := env.devices;
        if devices == [] {
          return RET_NO_SCANNER;
        }
        device := devices[0].id;
      }
      log := log + [OpenDevice(device)];
      match env.openResult {
        case OpenFails =>
          return RET_ERR;
        case ConfigureFails =>
          scanner := Some(Session(device, None));
          return RET_ERR;
        case Opens =>
          var choice := ChoosePaper(cfg.paperFormat, env.lcPaper, env.processLocale);
          var mode := if Given(cfg.colorMode) then cfg.colorMode else None;
          scanner := Some(Session(device, Some(Settings(cfg.resolutionDpi, mode, PAPER_SIZES[choice.key], cfg.adf))));
      }
      ret := RET_OK;
    }

    /** close_scanner: release the handle if any, then shut the driver down. */
    method CloseScanner()
      modifies this
      ensures Observed() == CloseSpec(old(Observed()))
    {
      log := log + [Closed(scanner)];
      scanner := None;
    }

    /** A create_pdf call on `job`, with the file it writes. */
    method Emit(job: ScanJob, suffix: string)
      modifies this
      ensures Observed() == EmitSpec(job.Value(), suffix, old(Observed()))
    {
      var file := job.CreatePdf(suffix);
      log := log + [PdfCall(Document(job.Value(), suffix))];
      if file.Some? {
        files := files + [file.value];
      }
    }

    /** input(): the operator's next answer. */
    method Prompt() returns (answer: Answer)
      modifies this
      ensures answer == env.answers(old(prompts))
      ensures Observed() == PromptSpec(old(Observed()))
    {
      answer := env.answers(prompts);
      prompts := prompts + 1;
    }

    /** _handle_sane_error: mark the job incomplete; report a jam to the operator. */
    method HandleSaneError(message: string, job: ScanJob) returns (reported: bool)
      modifies job
      ensures job.Value() == Acquisition.HandleSaneError(message, old(job.Value()))
      ensures reported <==> message == JAM_MESSAGE
    {
      job.MarkComplete(false);
      reported := message == JAM_MESSAGE;
    }

    /** _run_multi_scan: drain the feeder into a fresh job. */
    method RunMultiScan(offset: nat) returns (job: ScanJob)
      modifies this
      ensures fresh(job)
      ensures Pass(job.Value(), Observed()) ==
              Pass(FeederPass(cfg, env.feeds(old(captures)), offset), old(Observed()).(captures := old(captures) + 1))
    {
      job := new ScanJob(cfg.outputDir, cfg.outputFilename, false);
      var feed := env.feeds(captures);
      captures := captures + 1;
      var i := 0;
      while i < feed.frames
        modifies job
        invariant 0 <= i <= feed.frames
        invariant job.Value() == NewJob(cfg, false).(pages := Indices(offset, i))
      {
        job.AddImage(offset + i);
        i := i + 1;
      }
      match feed.stop {
        case None =>
          job.MarkComplete(true);
        case Some(SaneError(message)) =>
          var reported := HandleSaneError(message, job);
        case Some(OtherError) =>
      }
    }

    /** _run_one_sided_scan: one capture pass into `job` (flatbed) or a fresh job (ADF). */
    method RunOneSidedScan(offset: nat, job: ScanJob?) returns (r: ScanJob)
      modifies this, job
      ensures Pass(r.Value(), Observed()) == PassSpec(cfg, env, old(JobOf(job)), offset, old(Observed()))
      ensures cfg.adf || job == null ==> fresh(r)
      ensures !cfg.adf && job != null ==> r == job
      ensures cfg.adf && job != null ==> job.Value() == old(job.Value())
    {
      if cfg.adf {
        r := RunMultiScan(offset);
        return;
      }
      if job == null {
        r := new ScanJob(cfg.outputDir, cfg.outputFilename, true);
      } else {
        r := job;
      }
      var shot := env.shots(captures);
      captures := captures + 1;
      match shot {
        case Captured =>
          r.AddImage(r.NumPages() + offset + 1);
        case ShotFailed(SaneError(message)) =>
          var reported := HandleSaneError(message, r);
        case ShotFailed(OtherError) =>
          r.MarkComplete(false);
      }
    }

    /** One iteration of the pass loop: a pass, then (with a multi-document mode) the document and the prompt. */
    method ScanIteration(job: ScanJob?, ghost i: nat) returns (next: ScanJob?, stop: bool)
      requires i < MAX_SCANS
      modifies this, job
      ensures next != null ==> next == job || fresh(next)
      ensures var spec := LoopSpec(cfg, env, old(JobOf(job)), i, old(Observed()));
              if stop then spec == Acquisition.Run(JobOf(next), Observed())
              else spec == LoopSpec(cfg, env, JobOf(next), i + 1, Observed())
    {
      ghost var p := PassSpec(cfg, env, JobOf(job), 0, Observed());
      next := RunOneSidedScan(0, job);
      assert JobOf(next) == Some(p.job) && Observed() == p.obs;
      if cfg.multidoc.None? {
        return next, true;
      }
      if IsSplit(cfg) {
        Emit(next, "");
        next := null;
      }
      var answer := Prompt();
      stop := answer == Abort;
    }

    /** The pass loop of scan_single_sided; returns the job still pending. */
    method ScanPasses(first: ScanJob?) returns (job: ScanJob?)
      modifies this, first
      ensures Acquisition.Run(JobOf(job), Observed()) == LoopSpec(cfg, env, old(JobOf(first)), 0, old(Observed()))
    {
      ghost var target := LoopSpec(cfg, env, JobOf(first), 0, Observed());
      job := first;
      var i := 0;
      while i < MAX_SCANS
        invariant 0 <= i <= MAX_SCANS
        invariant job != null ==> job == first || fresh(job)
        invariant LoopSpec(cfg, env, JobOf(job), i, Observed()) == target
      {
        var stop;
        job, stop := ScanIteration(job, i);
        if stop {
          return;
        }
        i := i + 1;
      }
    }

    /** scan_single_sided: open, the pass loop, close, then the pending job's document. */
    method ScanSingleSided() returns (ret: int)
      modifies this
      ensures Step(ret, Observed()) == SingleSidedSpec(cfg, env, old(Observed()))
    {
      ret := OpenScanner();
      if ret != RET_OK {
        return;
      }
      var job: ScanJob? := null;
      if cfg.multidoc == Some("join") {
        job := new ScanJob(cfg.outputDir, cfg.outputFilename, true);
      }
      job := ScanPasses(job);
      CloseScanner();
      if job != null {
        Emit(job, "");
      }
      ret := RET_OK;
    }

    /** scan_double_sided. */
    method ScanDoubleSided() returns (ret: int)
      modifies this
      ensures Step(ret, Observed()) == DoubleSidedSpec(cfg, env, old(Observed()))
    {
      ret := OpenScanner();
      if ret != RET_OK {
        return;
      }
      ret := ScanBothSides();
    }

    /** scan_double_sided once the scanner is open: front, prompt, back, close, then the documents. */
    method ScanBothSides() returns (ret: int)
      modifies this
      ensures Step(ret, Observed()) == DoubleSidedAfterOpen(cfg, env, old(Observed()))
    {
      var front := RunOneSidedScan(0, null);
      if !front.complete {
        Emit(front, "_front_partial");
        CloseScanner();
        return RET_ERR;
      }
      var answer := Prompt();
      if answer == Abort {
        Emit(front, "_front");
        CloseScanner();
        return RET_ERR;
      }
      var back := RunOneSidedScan(front.NumPages(), null);
      if !back.complete {
        Emit(front, "_front");
        Emit(back, "_back_partial");
        CloseScanner();
        return RET_ERR;
      }
      CloseScanner();
      if front.NumPages() != back.NumPages() {
        Emit(front, "_front");
        Emit(back, "_back");
        return RET_ERR;
      }
      var combined := front.MergeBackImages(back);
      Emit(combined, "");
      ret := RET_OK;
    }

    /** run. */
    method Run() returns (ret: int)
      modifies this
      ensures Step(ret, Observed()) == RunSpec(cfg, env, old(Observed()))
    {
      if cfg.findScanners {
        var devices := env.devices;
        return if |devices| == 0 then RET_NO_SCANNER else RET_OK;
      }
      if cfg.doubleSided {
        ret := ScanDoubleSided();
      } else {
        ret := ScanSingleSided();
      }
    }
  }
}
