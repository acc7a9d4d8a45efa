/**
 * Concrete runs that reproduce the outcomes the controller's unit tests
 * assert (return code, capture and create_pdf call counts): one device that
 * opens, every flatbed shot captured, an empty feeder, and an operator who
 * presses Enter once and then ends the input. The tests' mocked arguments
 * name a device and a resolution directly; here the device comes from the
 * device list and the resolution is the default.
 */
module Scenarios {
  import opened Base
  import opened Options
  import opened Jobs
  import opened Acquisition
  import opened AcquisitionProps

  function TestEnv(): Env
  {
    Env([Device("device1", "manufacturer", "model", "type")], Opens,
        k => Captured, k => Feed(0, None), k => if k == 0 then Continue else Abort,
        None, None)
  }

  function TestConfig(adf: bool, doubleSided: bool, multidoc: Option<string>): Config
  {
    Config(false, None, "/out", DEFAULT_OUTPUT_FILENAME, adf, None, None,
           DEFAULT_RESOLUTION_TEXT, doubleSided, multidoc)
  }

  const START: Obs := Obs(None, [], [], 0, 0)

  lemma TestOpens(cfg: Config)
    requires cfg.scanDevice.None?
    ensures OpenSpec(cfg, TestEnv(), START).ret == RET_OK
    ensures OpenSpec(cfg, TestEnv(), START).obs.log == [OpenDevice("device1")]
    ensures OpenSpec(cfg, TestEnv(), START).obs.captures == 0 && OpenSpec(cfg, TestEnv(), START).obs.prompts == 0
  {
    OpenOutcome(cfg, TestEnv(), START);
    assert [] + [OpenDevice("device1")] == [OpenDevice("device1")];
  }

  /** The operator answers Enter, then end-of-input: two passes. */
  lemma TestPasses()
    ensures Passes(TestEnv(), 0, 0) == 2
  {
    assert TestEnv().answers(0) == Continue;
    assert TestEnv().answers(1) == Abort;
  }

  /** A single-sided flatbed scan captures once and calls create_pdf once. */
  lemma SingleSidedScenario()
    ensures var r := SingleSidedSpec(TestConfig(false, false, None), TestEnv(), START);
            r.ret == RET_OK && r.obs.captures == 1 && |PdfCalls(r.obs.log)| == 1
  {
    var cfg := TestConfig(false, false, None);
    TestOpens(cfg);
    var a := OpenSpec(cfg, TestEnv(), START).obs;
    SingleDocumentScan(cfg, TestEnv(), a);
    var d := Document(PassJob(cfg, TestEnv(), None, 0, 0), "");
    LogConcat(a.log, [Closed(a.scanner), PdfCall(d)]);
    CountsOfTail(a.scanner, d);
  }

  lemma CountsOfTail(x: Option<Session>, d: Pdf)
    ensures PdfCalls([Closed(x), PdfCall(d)]) == [d]
    ensures PdfCalls([OpenDevice("device1")]) == []
  {
    Cons(Closed(x), [PdfCall(d)]);
    Cons(PdfCall(d), []);
    Cons(OpenDevice("device1"), []);
    assert [Closed(x)] + [PdfCall(d)] == [Closed(x), PdfCall(d)];
    assert [PdfCall(d)] + [] == [PdfCall(d)];
    assert [OpenDevice("device1")] + [] == [OpenDevice("device1")];
  }

  /**
   * A double-sided ADF scan whose feeder yields nothing: both passes run,
   * the sides match (zero pages each), one create_pdf call is made and, the
   * job being empty, no file is written.
   */
  lemma FeederDoubleSidedScenario()
    ensures var r := DoubleSidedSpec(TestConfig(true, true, None), TestEnv(), START);
            r.ret == RET_OK && r.obs.captures == 2 && |PdfCalls(r.obs.log)| == 1 && r.obs.files == []
  {
    var cfg := TestConfig(true, true, None);
    TestOpens(cfg);
    var a := OpenSpec(cfg, TestEnv(), START).obs;
    DoubleSidedOutcomes(cfg, TestEnv(), a);
    var f := Front(cfg, TestEnv(), a);
    var b := Back(cfg, TestEnv(), a);
    assert f.complete && b.complete && f.pages == [] && b.pages == [];
    var d := Document(MergeBack(f, b).value, "");
    LogConcat(a.log, [Closed(a.scanner), PdfCall(d)]);
    CountsOfTail(a.scanner, d);
  }

  /** Split mode with Enter then end-of-input: two passes, two create_pdf calls. */
  lemma SplitScenario()
    ensures var r := SingleSidedSpec(TestConfig(false, false, Some("split")), TestEnv(), START);
            r.ret == RET_OK && |PdfCalls(r.obs.log)| == 2
  {
    var cfg := TestConfig(false, false, Some("split"));
    TestOpens(cfg);
    TestPasses();
    var a := OpenSpec(cfg, TestEnv(), START).obs;
    SplitScan(cfg, TestEnv(), a);
    var calls := SplitCalls(cfg, TestEnv(), 0, 2);
    SplitCallsDocuments(cfg, TestEnv(), 0, 2);
    LogConcat(a.log, calls);
    LogConcat(a.log + calls, [Closed(a.scanner)]);
    Cons(Closed(a.scanner), []);
    assert [Closed(a.scanner)] + [] == [Closed(a.scanner)];
    CountsOfTail(a.scanner, Document(NewJob(cfg, true), ""));
  }

  /** Join mode with Enter then end-of-input: two pages in one job, one create_pdf call. */
  lemma JoinScenario()
    ensures var r := SingleSidedSpec(TestConfig(false, false, Some("join")), TestEnv(), START);
            && r.ret == RET_OK && |PdfCalls(r.obs.log)| == 1
            && PdfCalls(r.obs.log)[0].pages == [1, 2]
  {
    var cfg := TestConfig(false, false, Some("join"));
    TestOpens(cfg);
    TestPasses();
    var a := OpenSpec(cfg, TestEnv(), START).obs;
    JoinScan(cfg, TestEnv(), a);
    JoinJob(cfg, TestEnv(), 0, 2);
    var job := Chain(cfg, TestEnv(), InitialJob(cfg), 0, 2).value;
    assert CapturedCount(TestEnv(), 0, 2) == 2;
    assert job.pages == Indices(1, 2);
    assert Indices(1, 2) == [1, 2];
    var d := Document(job, "");
    LogConcat(a.log, [Closed(a.scanner), PdfCall(d)]);
    CountsOfTail(a.scanner, d);
  }
}
