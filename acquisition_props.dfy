/**
 * What the acquisition functions guarantee: the handle is released once,
 * each multi-document mode produces the documents it promises, the loop is
 * bounded, the double-sided outcomes, and the device/return-code rules.
 */
module AcquisitionProps {
  import opened Base
  import opened Options
  import opened Jobs
  import opened Acquisition

  // ---------------------------------------------------------------------
  // reference definitions
  // ---------------------------------------------------------------------

  /**
   * How many passes a multi-document loop entered at iteration `i` makes
   * when the operator's next answer is answers(p): it stops after the first
   * Abort or when MAX_SCANS passes have been made.
   */
  function Passes(env: Env, p: nat, i: nat): nat
    requires i < MAX_SCANS
    decreases MAX_SCANS - i
  {
    if env.answers(p) == Abort || i + 1 >= MAX_SCANS then 1 else 1 + Passes(env, p + 1, i + 1)
  }

  /** The pass count: every answer but the last is Continue; the last is Abort or the cap is hit. */
  lemma {:induction false} PassesMeaning(env: Env, p: nat, i: nat)
    requires i < MAX_SCANS
    ensures var n := Passes(env, p, i);
            && 1 <= n <= MAX_SCANS - i
            && (forall q :: p <= q < p + n - 1 ==> env.answers(q) == Continue)
            && (env.answers(p + n - 1) == Abort || i + n == MAX_SCANS)
    decreases MAX_SCANS - i
  {
    if env.answers(p) != Abort && i + 1 < MAX_SCANS {
      PassesMeaning(env, p + 1, i + 1);
    }
  }

  /** The create_pdf calls in a log, in order. */
  function PdfCalls(log: seq<Event>): seq<Pdf>
  {
    if log == [] then []
    else (if log[0].PdfCall? then [log[0].pdf] else []) + PdfCalls(log[1..])
  }

  /** The close_scanner calls in a log. */
  function CloseCount(log: seq<Event>): nat
  {
    if log == [] then 0 else (if log[0].Closed? then 1 else 0) + CloseCount(log[1..])
  }

  /** The documents among create_pdf calls that result in a file: those with pages. */
  function WrittenFiles(log: seq<Event>): seq<Pdf>
  {
    if log == [] then []
    else (if log[0].PdfCall? && log[0].pdf.pages != [] then [log[0].pdf] else []) + WrittenFiles(log[1..])
  }

  lemma LogConcat(a: seq<Event>, b: seq<Event>)
    ensures PdfCalls(a + b) == PdfCalls(a) + PdfCalls(b)
    ensures CloseCount(a + b) == CloseCount(a) + CloseCount(b)
    ensures WrittenFiles(a + b) == WrittenFiles(a) + WrittenFiles(b)
  {
    PdfCallsConcat(a, b);
    CloseCountConcat(a, b);
    WrittenFilesConcat(a, b);
  }

  lemma {:induction false} PdfCallsConcat(a: seq<Event>, b: seq<Event>)
    ensures PdfCalls(a + b) == PdfCalls(a) + PdfCalls(b)
  {
    if a != [] {
      assert (a + b)[0] == a[0];
      assert (a + b)[1..] == a[1..] + b;
      PdfCallsConcat(a[1..], b);
    } else {
      assert a + b == b;
    }
  }

  lemma {:induction false} CloseCountConcat(a: seq<Event>, b: seq<Event>)
    ensures CloseCount(a + b) == CloseCount(a) + CloseCount(b)
  {
    if a != [] {
      assert (a + b)[0] == a[0];
      assert (a + b)[1..] == a[1..] + b;
      CloseCountConcat(a[1..], b);
    } else {
      assert a + b == b;
    }
  }

  lemma {:induction false} WrittenFilesConcat(a: seq<Event>, b: seq<Event>)
    ensures WrittenFiles(a + b) == WrittenFiles(a) + WrittenFiles(b)
  {
    if a != [] {
      assert (a + b)[0] == a[0];
      assert (a + b)[1..] == a[1..] + b;
      WrittenFilesConcat(a[1..], b);
    } else {
      assert a + b == b;
    }
  }

  /**
   * The writes made are exactly the create_pdf calls of the log on jobs with
   * pages, in order. File names are not expanded, so two writes may land on
   * one path; `files` lists writes, not distinct files.
   */
  predicate Consistent(o: Obs)
  {
    o.files == WrittenFiles(o.log)
  }

  lemma StepsKeepConsistent(o: Obs, j: JobState, suffix: string)
    requires Consistent(o)
    ensures Consistent(EmitSpec(j, suffix, o))
    ensures Consistent(CloseSpec(o))
    ensures Consistent(PromptSpec(o))
    ensures Consistent(o.(captures := o.captures + 1))
  {
    LogConcat(o.log, [PdfCall(Document(j, suffix))]);
    LogConcat(o.log, [Closed(o.scanner)]);
  }

  lemma OpenKeepsConsistent(cfg: Config, env: Env, o: Obs)
    requires Consistent(o)
    ensures Consistent(OpenSpec(cfg, env, o).obs)
  {
    if ChosenDevice(cfg, env).Some? {
      LogConcat(o.log, [OpenDevice(ChosenDevice(cfg, env).value)]);
    }
  }

  lemma {:induction false} LoopKeepsConsistent(cfg: Config, env: Env, job: Option<JobState>, i: nat, o: Obs)
    requires Consistent(o)
    ensures Consistent(LoopSpec(cfg, env, job, i, o).obs)
    decreases MAX_SCANS - i
  {
    if i < MAX_SCANS {
      var p := PassSpec(cfg, env, job, 0, o);
      StepsKeepConsistent(o, p.job, "");
      if cfg.multidoc.Some? {
        var emitted := if IsSplit(cfg) then EmitSpec(p.job, "", p.obs) else p.obs;
        StepsKeepConsistent(p.obs, p.job, "");
        StepsKeepConsistent(emitted, p.job, "");
        var pending := if IsSplit(cfg) then None else Some(p.job);
        if env.answers(emitted.prompts) != Abort {
          LoopKeepsConsistent(cfg, env, pending, i + 1, PromptSpec(emitted));
        }
      }
    }
  }

  lemma SingleSidedKeepsConsistent(cfg: Config, env: Env, a: Obs)
    requires Consistent(a)
    ensures Consistent(SingleSidedAfterOpen(cfg, env, a).obs)
  {
    var r := LoopSpec(cfg, env, InitialJob(cfg), 0, a);
    LoopKeepsConsistent(cfg, env, InitialJob(cfg), 0, a);
    StepsKeepConsistent(r.obs, NewJob(cfg, true), "");
    if r.pending.Some? {
      StepsKeepConsistent(CloseSpec(r.obs), r.pending.value, "");
    }
  }

  lemma DoubleSidedKeepsConsistent(cfg: Config, env: Env, a: Obs)
    requires Consistent(a)
    ensures Consistent(DoubleSidedAfterOpen(cfg, env, a).obs)
  {
    var f := PassSpec(cfg, env, None, 0, a);
    StepsKeepConsistent(a, f.job, "");
    var asked := PromptSpec(f.obs);
    StepsKeepConsistent(f.obs, f.job, "_front_partial");
    StepsKeepConsistent(EmitSpec(f.job, "_front_partial", f.obs), f.job, "");
    StepsKeepConsistent(f.obs, f.job, "");
    StepsKeepConsistent(asked, f.job, "_front");
    StepsKeepConsistent(EmitSpec(f.job, "_front", asked), f.job, "");
    var b := PassSpec(cfg, env, None, |f.job.pages|, asked);
    StepsKeepConsistent(asked, b.job, "");
    StepsKeepConsistent(b.obs, f.job, "_front");
    var bf := EmitSpec(f.job, "_front", b.obs);
    StepsKeepConsistent(bf, b.job, "_back_partial");
    StepsKeepConsistent(EmitSpec(b.job, "_back_partial", bf), b.job, "");
    StepsKeepConsistent(b.obs, b.job, "");
    var closed := CloseSpec(b.obs);
    StepsKeepConsistent(closed, f.job, "_front");
    StepsKeepConsistent(EmitSpec(f.job, "_front", closed), b.job, "_back");
    if |f.job.pages| == |b.job.pages| {
      StepsKeepConsistent(closed, MergeBack(f.job, b.job).value, "");
    }
  }

  /** Whatever path a run takes, a write is made for exactly each create_pdf call on a job with pages. */
  lemma RunKeepsConsistent(cfg: Config, env: Env, o: Obs)
    requires Consistent(o)
    ensures Consistent(RunSpec(cfg, env, o).obs)
  {
    if !cfg.findScanners {
      var a := OpenSpec(cfg, env, o);
      OpenKeepsConsistent(cfg, env, o);
      if a.ret == RET_OK {
        if cfg.doubleSided {
          DoubleSidedKeepsConsistent(cfg, env, a.obs);
        } else {
          SingleSidedKeepsConsistent(cfg, env, a.obs);
        }
      }
    }
  }

  // ---------------------------------------------------------------------
  // single capture passes
  // ---------------------------------------------------------------------

  /**
   * A flatbed pass never aborts: a captured page is appended to the job
   * (given or fresh) with the next temp-file index, and any failure keeps
   * the pages and marks the job incomplete.
   */
  lemma FlatbedPassOutcome(cfg: Config, shot: Shot, job: Option<JobState>, offset: nat)
    ensures var j := job.GetOr(NewJob(cfg, true));
            var r := FlatbedPass(cfg, shot, job, offset);
            && r.pages == j.pages + (if shot.Captured? then [|j.pages| + offset + 1] else [])
            && (r.complete <==> j.complete && shot.Captured?)
            && r.dir == j.dir && r.template == j.template
  {
  }

  /**
   * A feeder pass returns a fresh job holding one index per delivered frame
   * from `offset` on; it is complete exactly when the feeder ran dry
   * without an exception, driver error or other.
   */
  lemma FeederPassOutcome(cfg: Config, feed: Feed, offset: nat)
    ensures var r := FeederPass(cfg, feed, offset);
            && r.pages == Indices(offset, feed.frames)
            && (r.complete <==> feed.stop.None?)
            && r.dir == cfg.outputDir && r.template == cfg.outputFilename
  {
  }

  // ---------------------------------------------------------------------
  // the pass loop, mode by mode
  // ---------------------------------------------------------------------

  /** The job pending after `n` passes that each build on the previous job, from the `c`-th driver reply on. */
  function Chain(cfg: Config, env: Env, job: Option<JobState>, c: nat, n: nat): (r: Option<JobState>)
    ensures r.Some? <==> job.Some? || n > 0
    decreases n
  {
    if n == 0 then job else Chain(cfg, env, Some(PassJob(cfg, env, job, 0, c)), c + 1, n - 1)
  }

  /** The create_pdf calls of `n` split-mode passes, from the `c`-th driver reply on: one document per pass. */
  function SplitCalls(cfg: Config, env: Env, c: nat, n: nat): (calls: seq<Event>)
    decreases n
  {
    if n == 0 then []
    else [PdfCall(Document(PassJob(cfg, env, None, 0, c), ""))] + SplitCalls(cfg, env, c + 1, n - 1)
  }

  /** The first of `n` split-mode calls, and the rest. */
  lemma SplitCallsHead(cfg: Config, env: Env, c: nat, n: nat)
    requires n > 0
    ensures PdfCalls(SplitCalls(cfg, env, c, n)) ==
              [Document(PassJob(cfg, env, None, 0, c), "")] + PdfCalls(SplitCalls(cfg, env, c + 1, n - 1))
    ensures CloseCount(SplitCalls(cfg, env, c, n)) == CloseCount(SplitCalls(cfg, env, c + 1, n - 1))
  {
    Cons(PdfCall(Document(PassJob(cfg, env, None, 0, c), "")), SplitCalls(cfg, env, c + 1, n - 1));
  }

  /** Split mode writes the `k`-th pass as the `k`-th document, and closes nothing in between. */
  lemma {:induction false} SplitCallsDocuments(cfg: Config, env: Env, c: nat, n: nat)
    ensures var docs := PdfCalls(SplitCalls(cfg, env, c, n));
            && |docs| == n
            && (forall k :: 0 <= k < n ==> docs[k] == Document(PassJob(cfg, env, None, 0, c + k), ""))
            && CloseCount(SplitCalls(cfg, env, c, n)) == 0
    decreases n
  {
    if n > 0 {
      SplitCallsDocuments(cfg, env, c + 1, n - 1);
      SplitCallsHead(cfg, env, c, n);
      var docs := PdfCalls(SplitCalls(cfg, env, c, n));
      var rest := PdfCalls(SplitCalls(cfg, env, c + 1, n - 1));
      forall k | 0 <= k < n
        ensures docs[k] == Document(PassJob(cfg, env, None, 0, c + k), "")
      {
        if k > 0 {
          assert docs[k] == rest[k - 1];
        }
      }
    }
  }

  /** The loop in `join` mode (or any mode but `split` and none): the job carries over, nothing is written. */
  lemma {:induction false} JoinLoop(cfg: Config, env: Env, job: Option<JobState>, i: nat, o: Obs)
    requires cfg.multidoc.Some? && !IsSplit(cfg) && i < MAX_SCANS
    ensures var n := Passes(env, o.prompts, i);
            LoopSpec(cfg, env, job, i, o) ==
            Run(Chain(cfg, env, job, o.captures, n), o.(captures := o.captures + n, prompts := o.prompts + n))
    decreases MAX_SCANS - i
  {
    if env.answers(o.prompts) != Abort && i + 1 < MAX_SCANS {
      var p := PassSpec(cfg, env, job, 0, o);
      JoinLoop(cfg, env, Some(p.job), i + 1, PromptSpec(p.obs));
    }
  }

  /** One iteration of the `split` loop: the pass is written, then the operator is asked. */
  lemma SplitStep(cfg: Config, env: Env, i: nat, o: Obs)
    requires IsSplit(cfg) && i < MAX_SCANS
    ensures var asked := PromptSpec(EmitSpec(PassJob(cfg, env, None, 0, o.captures), "", o.(captures := o.captures + 1)));
            LoopSpec(cfg, env, None, i, o) ==
            if env.answers(o.prompts) == Abort then Run(None, asked) else LoopSpec(cfg, env, None, i + 1, asked)
  {
  }

  /** The loop in `split` mode: each pass is written as its own document and nothing is pending at the end. */
  lemma {:induction false} SplitLoop(cfg: Config, env: Env, i: nat, o: Obs)
    requires IsSplit(cfg) && i < MAX_SCANS
    ensures var n := Passes(env, o.prompts, i);
            var r := LoopSpec(cfg, env, None, i, o);
            && r.pending.None?
            && r.obs.log == o.log + SplitCalls(cfg, env, o.captures, n)
            && r.obs.scanner == o.scanner
            && r.obs.captures == o.captures + n && r.obs.prompts == o.prompts + n
    decreases MAX_SCANS - i
  {
    var job := PassJob(cfg, env, None, 0, o.captures);
    var asked := PromptSpec(EmitSpec(job, "", o.(captures := o.captures + 1)));
    var call := PdfCall(Document(job, ""));
    SplitStep(cfg, env, i, o);
    if env.answers(o.prompts) != Abort && i + 1 < MAX_SCANS {
      SplitLoop(cfg, env, i + 1, asked);
      var n := Passes(env, o.prompts, i);
      SplitCallsUnfold(cfg, env, o.captures, n);
      AppendAssoc(o.log, call, SplitCalls(cfg, env, o.captures + 1, n - 1));
    } else {
      SplitCallsUnfold(cfg, env, o.captures, 1);
    }
  }

  lemma SplitCallsUnfold(cfg: Config, env: Env, c: nat, n: nat)
    requires n > 0
    ensures SplitCalls(cfg, env, c, n) == [PdfCall(Document(PassJob(cfg, env, None, 0, c), ""))] + SplitCalls(cfg, env, c + 1, n - 1)
    ensures n == 1 ==> SplitCalls(cfg, env, c, n) == [PdfCall(Document(PassJob(cfg, env, None, 0, c), ""))]
  {
  }

  lemma AppendAssoc(log: seq<Event>, e: Event, rest: seq<Event>)
    ensures (log + [e]) + rest == log + ([e] + rest)
  {
  }

  /** Under ADF every pass starts a new job, so after `n` passes only the last batch is pending. */
  lemma {:induction false} FeederChainKeepsLastBatch(cfg: Config, env: Env, job: Option<JobState>, c: nat, n: nat)
    requires cfg.adf && n >= 1
    ensures Chain(cfg, env, job, c, n) == Some(FeederPass(cfg, env.feeds(c + n - 1), 0))
    decreases n
  {
    if n > 1 {
      FeederChainKeepsLastBatch(cfg, env, Some(PassJob(cfg, env, job, 0, c)), c + 1, n - 1);
    }
  }

  /** How many of the `n` flatbed replies from the `c`-th on delivered a page. */
  function CapturedCount(env: Env, c: nat, n: nat): (m: nat)
    ensures m <= n
    decreases n
  {
    if n == 0 then 0 else (if env.shots(c).Captured? then 1 else 0) + CapturedCount(env, c + 1, n - 1)
  }

  predicate AllCaptured(env: Env, c: nat, n: nat)
  {
    forall k :: c <= k < c + n ==> env.shots(k).Captured?
  }

  lemma IndicesCons(s: nat, m: nat)
    ensures [s] + Indices(s + 1, m) == Indices(s, m + 1)
  {
    var a := [s] + Indices(s + 1, m);
    var b := Indices(s, m + 1);
    assert forall k :: 0 <= k < m + 1 ==> a[k] == b[k];
  }

  lemma AllCapturedStep(env: Env, c: nat, n: nat)
    requires n > 0
    ensures AllCaptured(env, c, n) <==> env.shots(c).Captured? && AllCaptured(env, c + 1, n - 1)
  {
    if env.shots(c).Captured? && AllCaptured(env, c + 1, n - 1) {
      forall k | c <= k < c + n
        ensures env.shots(k).Captured?
      {
        if k > c {
          assert c + 1 <= k < (c + 1) + (n - 1);
        }
      }
    }
  }

  lemma AppendNext(pages: seq<nat>, m: nat)
    ensures (pages + [|pages| + 1]) + Indices(|pages| + 2, m) == pages + Indices(|pages| + 1, m + 1)
  {
    IndicesCons(|pages| + 1, m);
    assert (pages + [|pages| + 1]) + Indices(|pages| + 2, m) == pages + ([|pages| + 1] + Indices(|pages| + 2, m));
  }

  /**
   * Flatbed passes that build on job `j`: every captured page is appended
   * with the next index, and the job stays complete only if no pass failed.
   */
  lemma {:induction false} FlatbedChain(cfg: Config, env: Env, j: JobState, c: nat, n: nat)
    requires !cfg.adf
    ensures var r := Chain(cfg, env, Some(j), c, n).value;
            && r.pages == j.pages + Indices(|j.pages| + 1, CapturedCount(env, c, n))
            && (r.complete <==> j.complete && AllCaptured(env, c, n))
            && r.dir == j.dir && r.template == j.template
    decreases n
  {
    if n > 0 {
      var j' := FlatbedPass(cfg, env.shots(c), Some(j), 0);
      assert Chain(cfg, env, Some(j), c, n) == Chain(cfg, env, Some(j'), c + 1, n - 1);
      FlatbedChain(cfg, env, j', c + 1, n - 1);
      AllCapturedStep(env, c, n);
      if env.shots(c).Captured? {
        AppendNext(j.pages, CapturedCount(env, c + 1, n - 1));
      } else {
        assert j'.pages == j.pages;
      }
    } else {
      assert Indices(|j.pages| + 1, 0) == [];
    }
  }

  /** A flatbed loop entered with no job behaves as one entered with an empty complete job. */
  lemma FlatbedStartsFresh(cfg: Config, env: Env, c: nat, n: nat)
    requires !cfg.adf && n >= 1
    ensures Chain(cfg, env, None, c, n) == Chain(cfg, env, Some(NewJob(cfg, true)), c, n)
  {
    assert PassJob(cfg, env, None, 0, c) == PassJob(cfg, env, Some(NewJob(cfg, true)), 0, c);
  }

  // ---------------------------------------------------------------------
  // open_scanner
  // ---------------------------------------------------------------------

  /**
   * open_scanner: NO_SCANNER exactly when no device is named and none is
   * found; OK exactly when a device is chosen and opens; the first listed
   * device is used when none is named; a failed configuration leaves the
   * opened handle in place. Scanning, prompts and files are untouched.
   */
  lemma OpenOutcome(cfg: Config, env: Env, o: Obs)
    ensures var r := OpenSpec(cfg, env, o);
            && (r.ret == RET_NO_SCANNER <==> !Given(cfg.scanDevice) && env.devices == [])
            && (r.ret == RET_OK <==> (Given(cfg.scanDevice) || env.devices != []) && env.openResult == Opens)
            && (r.ret == RET_OK || r.ret == RET_ERR || r.ret == RET_NO_SCANNER)
            && (!Given(cfg.scanDevice) && env.devices != [] ==>
                  r.obs.log == o.log + [OpenDevice(env.devices[0].id)])
            && (r.ret == RET_OK ==> r.obs.scanner.Some? && r.obs.scanner.value.settings == Some(SessionSettings(cfg, env)))
            && (r.ret == RET_ERR && env.openResult == ConfigureFails ==> r.obs.scanner.Some?)
            && (r.ret == RET_ERR && env.openResult == OpenFails ==> r.obs.scanner == o.scanner)
            && r.obs.files == o.files && r.obs.captures == o.captures && r.obs.prompts == o.prompts
            && CloseCount(r.obs.log) == CloseCount(o.log)
            && (r.ret == RET_NO_SCANNER ==> r.obs == o)
            && (Given(cfg.scanDevice) ==> r.obs.log == o.log + [OpenDevice(cfg.scanDevice.value)])
  {
    var d := ChosenDevice(cfg, env);
    if d.Some? {
      LogConcat(o.log, [OpenDevice(d.value)]);
    }
  }

  /**
   * When open_scanner does not return OK, both scan entry points return its
   * code at once: nothing is captured, nothing written and the scanner is
   * not closed (a handle left by a failed configuration stays open).
   */
  lemma FailedOpenSkipsScan(cfg: Config, env: Env, o: Obs)
    requires OpenSpec(cfg, env, o).ret != RET_OK
    ensures SingleSidedSpec(cfg, env, o) == DoubleSidedSpec(cfg, env, o) == OpenSpec(cfg, env, o)
    ensures var r := SingleSidedSpec(cfg, env, o);
            && (r.ret == RET_ERR || r.ret == RET_NO_SCANNER)
            && r.obs.captures == o.captures && r.obs.files == o.files
            && CloseCount(r.obs.log) == CloseCount(o.log)
            && (env.openResult == ConfigureFails && r.ret == RET_ERR ==> r.obs.scanner.Some?)
  {
    OpenOutcome(cfg, env, o);
  }

  // ---------------------------------------------------------------------
  // scan_single_sided, mode by mode, from the record `a` a successful open leaves
  // ---------------------------------------------------------------------

  /** With no multi-document mode: one pass, no prompt, the scanner closed, then one create_pdf call. */
  lemma SingleDocumentScan(cfg: Config, env: Env, a: Obs)
    requires cfg.multidoc.None?
    ensures var r := SingleSidedAfterOpen(cfg, env, a);
            && r.ret == RET_OK
            && r.obs.log == a.log + [Closed(a.scanner), PdfCall(Document(PassJob(cfg, env, None, 0, a.captures), ""))]
            && r.obs.scanner.None? && r.obs.captures == a.captures + 1 && r.obs.prompts == a.prompts
  {
    assert InitialJob(cfg).None?;
  }

  /**
   * In `split` mode: the operator's answers decide the number of passes n
   * (1 to MAX_SCANS); each pass is written as its own document before the
   * prompt, the scanner is closed at the end and nothing more is written.
   */
  lemma SplitScan(cfg: Config, env: Env, a: Obs)
    requires IsSplit(cfg)
    ensures var n := Passes(env, a.prompts, 0);
            var r := SingleSidedAfterOpen(cfg, env, a);
            && r.ret == RET_OK && 1 <= n <= MAX_SCANS
            && r.obs.log == a.log + SplitCalls(cfg, env, a.captures, n) + [Closed(a.scanner)]
            && r.obs.scanner.None? && r.obs.captures == a.captures + n && r.obs.prompts == a.prompts + n
  {
    assert InitialJob(cfg).None?;
    SplitLoop(cfg, env, 0, a);
    PassesMeaning(env, a.prompts, 0);
  }

  /**
   * In `join` mode, and in any other mode that is not `split`: n passes
   * build one job, written once after the scanner is closed (JoinJob says
   * which pages it holds).
   */
  lemma JoinScan(cfg: Config, env: Env, a: Obs)
    requires cfg.multidoc.Some? && !IsSplit(cfg)
    ensures var n := Passes(env, a.prompts, 0);
            var r := SingleSidedAfterOpen(cfg, env, a);
            var job := Chain(cfg, env, InitialJob(cfg), a.captures, n).value;
            && r.ret == RET_OK && 1 <= n <= MAX_SCANS
            && r.obs.log == a.log + [Closed(a.scanner), PdfCall(Document(job, ""))]
            && r.obs.scanner.None? && r.obs.captures == a.captures + n && r.obs.prompts == a.prompts + n
  {
    JoinLoop(cfg, env, InitialJob(cfg), 0, a);
    PassesMeaning(env, a.prompts, 0);
  }

  /**
   * The job a join-mode scan writes after n passes: on the flatbed its pages
   * are the temp files 1..m for the m captured pages, and it is complete
   * only if every pass captured; under ADF only the last feeder batch survives.
   */
  lemma JoinJob(cfg: Config, env: Env, c: nat, n: nat)
    requires cfg.multidoc.Some? && !IsSplit(cfg) && n >= 1
    ensures var job := Chain(cfg, env, InitialJob(cfg), c, n).value;
            && (cfg.adf ==> job == FeederPass(cfg, env.feeds(c + n - 1), 0))
            && (!cfg.adf ==> job.pages == Indices(1, CapturedCount(env, c, n))
                             && (job.complete <==> AllCaptured(env, c, n)))
  {
    if cfg.adf {
      FeederChainKeepsLastBatch(cfg, env, InitialJob(cfg), c, n);
    } else {
      if InitialJob(cfg).None? {
        FlatbedStartsFresh(cfg, env, c, n);
      }
      FlatbedChain(cfg, env, NewJob(cfg, true), c, n);
      assert [] + Indices(1, CapturedCount(env, c, n)) == Indices(1, CapturedCount(env, c, n));
    }
  }

  lemma Cons(e: Event, rest: seq<Event>)
    ensures PdfCalls([e] + rest) == (if e.PdfCall? then [e.pdf] else []) + PdfCalls(rest)
    ensures CloseCount([e] + rest) == (if e.Closed? then 1 else 0) + CloseCount(rest)
  {
    assert ([e] + rest)[1..] == rest;
  }

  /** The number of closes in a log of two or three events. */
  lemma Counts(e1: Event, e2: Event, e3: Event)
    ensures CloseCount([e1, e2]) == (if e1.Closed? then 1 else 0) + (if e2.Closed? then 1 else 0)
    ensures CloseCount([e1, e2, e3]) == CloseCount([e1, e2]) + (if e3.Closed? then 1 else 0)
  {
    assert [e1, e2] == [e1] + [e2];
    assert [e1, e2, e3] == [e1] + [e2, e3];
    assert [e2, e3] == [e2] + [e3];
    Cons(e1, [e2]);
    Cons(e2, []);
    Cons(e1, [e2, e3]);
    Cons(e2, [e3]);
    Cons(e3, []);
  }

  /** After a successful open, scan_single_sided closes the scanner exactly once and returns OK. */
  lemma {:induction false} SingleSidedClosesOnce(cfg: Config, env: Env, a: Obs)
    ensures var r := SingleSidedAfterOpen(cfg, env, a);
            && r.ret == RET_OK && r.obs.scanner.None?
            && CloseCount(r.obs.log) == CloseCount(a.log) + 1
            && a.captures + 1 <= r.obs.captures <= a.captures + MAX_SCANS
  {
    var x := Closed(a.scanner);
    if cfg.multidoc.None? {
      SingleDocumentScan(cfg, env, a);
      var e := PdfCall(Document(PassJob(cfg, env, None, 0, a.captures), ""));
      Counts(x, e, e);
      LogConcat(a.log, [x, e]);
    } else if IsSplit(cfg) {
      SplitScan(cfg, env, a);
      var calls := SplitCalls(cfg, env, a.captures, Passes(env, a.prompts, 0));
      SplitCallsDocuments(cfg, env, a.captures, Passes(env, a.prompts, 0));
      Counts(x, x, x);
      LogConcat(a.log, calls);
      LogConcat(a.log + calls, [x]);
    } else {
      JoinScan(cfg, env, a);
      var e := PdfCall(Document(Chain(cfg, env, InitialJob(cfg), a.captures, Passes(env, a.prompts, 0)).value, ""));
      Counts(x, e, e);
      LogConcat(a.log, [x, e]);
    }
  }

  // ---------------------------------------------------------------------
  // scan_double_sided, from the record `a` a successful open leaves
  // ---------------------------------------------------------------------

  /** The front-side pass of scan_double_sided, taking the next driver reply. */
  function Front(cfg: Config, env: Env, a: Obs): JobState
  {
    PassJob(cfg, env, None, 0, a.captures)
  }

  /** The back-side pass: its temp-file indices continue after the front's pages. */
  function Back(cfg: Config, env: Env, a: Obs): JobState
  {
    PassJob(cfg, env, None, |Front(cfg, env, a).pages|, a.captures + 1)
  }

  /**
   * The five ways scan_double_sided ends. Partial and unmatched scans are
   * written under their suffixes and the call returns RET_ERR; only two
   * complete sides with equal page counts are merged into one document and
   * give RET_OK. The scanner is closed after the partial documents are
   * written, but before the count check and the last two cases' writes.
   */
  lemma DoubleSidedOutcomes(cfg: Config, env: Env, a: Obs)
    ensures var f := Front(cfg, env, a);
            var b := Back(cfg, env, a);
            var go := env.answers(a.prompts) == Continue;
            var r := DoubleSidedAfterOpen(cfg, env, a);
            && (!f.complete ==>
                  r.ret == RET_ERR &&
                  r.obs.log == a.log + [PdfCall(Document(f, "_front_partial")), Closed(a.scanner)])
            && (f.complete && !go ==>
                  r.ret == RET_ERR &&
                  r.obs.log == a.log + [PdfCall(Document(f, "_front")), Closed(a.scanner)])
            && (f.complete && go && !b.complete ==>
                  r.ret == RET_ERR &&
                  r.obs.log == a.log + [PdfCall(Document(f, "_front")), PdfCall(Document(b, "_back_partial")), Closed(a.scanner)])
            && (f.complete && go && b.complete && |f.pages| != |b.pages| ==>
                  r.ret == RET_ERR &&
                  r.obs.log == a.log + [Closed(a.scanner), PdfCall(Document(f, "_front")), PdfCall(Document(b, "_back"))])
            && (f.complete && go && b.complete && |f.pages| == |b.pages| ==>
                  r.ret == RET_OK &&
                  r.obs.log == a.log + [Closed(a.scanner), PdfCall(Document(MergeBack(f, b).value, ""))])
            && r.obs.scanner.None?
            && a.captures + 1 <= r.obs.captures <= a.captures + 2 && r.obs.prompts <= a.prompts + 1
  {
  }

  /** scan_double_sided closes the scanner exactly once, whichever way it ends. */
  lemma {:induction false} DoubleSidedClosesOnce(cfg: Config, env: Env, a: Obs)
    ensures CloseCount(DoubleSidedAfterOpen(cfg, env, a).obs.log) == CloseCount(a.log) + 1
  {
    DoubleSidedOutcomes(cfg, env, a);
    var f := Front(cfg, env, a);
    var b := Back(cfg, env, a);
    var x := Closed(a.scanner);
    var r := DoubleSidedAfterOpen(cfg, env, a);
    if !f.complete {
      var e := PdfCall(Document(f, "_front_partial"));
      Counts(e, x, x);
      LogConcat(a.log, [e, x]);
    } else if env.answers(a.prompts) == Abort {
      var e := PdfCall(Document(f, "_front"));
      Counts(e, x, x);
      LogConcat(a.log, [e, x]);
    } else if !b.complete {
      var e1 := PdfCall(Document(f, "_front"));
      var e2 := PdfCall(Document(b, "_back_partial"));
      Counts(e1, e2, x);
      LogConcat(a.log, [e1, e2, x]);
    } else if |f.pages| != |b.pages| {
      var e1 := PdfCall(Document(f, "_front"));
      var e2 := PdfCall(Document(b, "_back"));
      Counts(x, e1, e2);
      LogConcat(a.log, [x, e1, e2]);
    } else {
      var e := PdfCall(Document(MergeBack(f, b).value, ""));
      Counts(x, e, e);
      LogConcat(a.log, [x, e]);
    }
  }

  /** The first temp-file index of a pass that starts at `offset`: one more on the flatbed. */
  function FirstIndex(cfg: Config, offset: nat): nat
  {
    if cfg.adf then offset else offset + 1
  }

  /** A pass from no job numbers its pages consecutively from FirstIndex; a flatbed pass has at most one. */
  lemma PassPages(cfg: Config, env: Env, offset: nat, c: nat)
    ensures var j := PassJob(cfg, env, None, offset, c);
            && j.pages == Indices(FirstIndex(cfg, offset), |j.pages|)
            && (!cfg.adf ==> |j.pages| <= 1)
  {
    if !cfg.adf && env.shots(c).Captured? {
      assert Indices(offset + 1, 1) == [offset + 1];
    }
  }

  lemma IndicesAppend(s: nat, m: nat, n: nat)
    ensures Indices(s, m) + Indices(s + m, n) == Indices(s, m + n)
  {
    var x := Indices(s, m) + Indices(s + m, n);
    var y := Indices(s, m + n);
    assert forall k :: 0 <= k < m + n ==> x[k] == y[k];
  }

  /**
   * A merged double-sided document uses each temp file written by the two
   * passes exactly once: its pages are a permutation of the 2n consecutive
   * indices, so front and back pages never share a file.
   */
  lemma DoubleSidedMergedPages(cfg: Config, env: Env, a: Obs)
    ensures var f := Front(cfg, env, a);
            var b := Back(cfg, env, a);
            DoubleSidedAfterOpen(cfg, env, a).ret == RET_OK ==>
              && |b.pages| == |f.pages|
              && multiset(MergeBack(f, b).value.pages) == multiset(Indices(FirstIndex(cfg, 0), 2 * |f.pages|))
  {
    DoubleSidedOutcomes(cfg, env, a);
    if DoubleSidedAfterOpen(cfg, env, a).ret == RET_OK {
      MergedFrontBack(cfg, env, a);
    }
  }

  lemma MergedFrontBack(cfg: Config, env: Env, a: Obs)
    requires |Back(cfg, env, a).pages| == |Front(cfg, env, a).pages|
    ensures var f := Front(cfg, env, a);
            multiset(MergeBack(f, Back(cfg, env, a)).value.pages) == multiset(Indices(FirstIndex(cfg, 0), 2 * |f.pages|))
  {
    var f := Front(cfg, env, a);
    var n := |f.pages|;
    PassPages(cfg, env, 0, a.captures);
    PassPages(cfg, env, n, a.captures + 1);
    MergedIndices(FirstIndex(cfg, 0), n, f.pages, Back(cfg, env, a).pages);
  }

  /** Merging the runs start..start+n-1 and start+n..start+2n-1 uses each index once. */
  lemma MergedIndices(start: nat, n: nat, front: seq<nat>, back: seq<nat>)
    requires front == Indices(start, n) && back == Indices(start + n, n)
    ensures multiset(Merged(front, back)) == multiset(Indices(start, 2 * n))
  {
    IndicesAppend(start, n, n);
    MergedMultiset(front, back);
    assert multiset(front) + multiset(back) == multiset(front + back);
  }

  /**
   * run, outside find mode: the scanner is closed exactly once when the
   * open succeeds and never when it fails.
   */
  lemma RunClosesOnce(cfg: Config, env: Env, o: Obs)
    requires !cfg.findScanners
    ensures var a := OpenSpec(cfg, env, o);
            CloseCount(RunSpec(cfg, env, o).obs.log) == CloseCount(o.log) + (if a.ret == RET_OK then 1 else 0)
  {
    var a := OpenSpec(cfg, env, o);
    OpenOutcome(cfg, env, o);
    if a.ret == RET_OK {
      if cfg.doubleSided {
        DoubleSidedClosesOnce(cfg, env, a.obs);
      } else {
        SingleSidedClosesOnce(cfg, env, a.obs);
      }
    }
  }

  // ---------------------------------------------------------------------
  // run, and the jam handling finding
  // ---------------------------------------------------------------------

  /** run with --find-scanners only lists devices: OK when there is one, NO_SCANNER otherwise, nothing else happens. */
  lemma RunFindMode(cfg: Config, env: Env, o: Obs)
    requires cfg.findScanners
    ensures RunSpec(cfg, env, o).obs == o
    ensures RunSpec(cfg, env, o).ret == RET_NO_SCANNER <==> env.devices == []
    ensures RunSpec(cfg, env, o).ret == RET_OK <==> env.devices != []
  {
  }

  /** The error handler as written agrees with the corrected one exactly on the jam message. */
  lemma HandleSaneErrorAgreesOnJam(message: string, j: JobState)
    ensures HandleSaneErrorAsWritten(message, j).Some? <==> message == JAM_MESSAGE
    ensures HandleSaneErrorAsWritten(message, j).Some? ==>
              HandleSaneErrorAsWritten(message, j).value == HandleSaneError(message, j)
  {
  }

  /**
   * A driver error other than the jam, such as "Invalid argument", escapes
   * the handler as written (no job comes back), while the corrected
   * handler keeps the job's pages and marks it incomplete.
   */
  lemma NonJamSaneErrorEscapes(j: JobState)
    ensures HandleSaneErrorAsWritten("Invalid argument", j).None?
    ensures HandleSaneError("Invalid argument", j) == j.(complete := false)
  {
    assert "Invalid argument"[0] != JAM_MESSAGE[0];
  }
}
