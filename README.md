# SimpleCmdScan acquisition core in Dafny

A model of the decision logic of SimpleCmdScan, a command-line scanning tool. It covers:

- **Scan job.** `ScanJob` is an ordered list of page references with a `complete` flag and output settings. Its methods add a page, mark the job complete, merge a back-side job into a front-side one, and emit a PDF.
- **Configuration rules.** How the controller settles its resolution, paper format (with the locale default) and scanner device.
- **Capture passes.** The flatbed pass takes one page into the given job or a fresh one. The feeder (ADF) pass drains the feeder into a fresh job. A paper jam or any non-SANE error marks the job incomplete instead of ending the run. For any other SANE error the code as written raises `TypeError` (see Findings); the scan procedures here use the corrected handler, which treats it like the jam.
- **Scan procedures.** The single-sided loop with its three multi-document modes, the double-sided procedure, and `run`.

The SANE driver, the operator and the locale are inputs (`Acquisition.Env`):

- the device list;
- how opening the device goes;
- one reply script per kind of capture call: `shots` for `scanner.scan()` and `feeds` for `scanner.multi_scan()`;
- the operator's answers at the prompts (Enter or end-of-input);
- `LC_PAPER` and the process locale.

Each script is a function of how many calls of its kind have happened so far. A page is identified by the index of the temporary file it was saved to, which is the number that `_save_single_page` is given.

The record of a run (`Acquisition.Obs`) holds:

- the scanner handle;
- the log of driver sessions opened, `close_scanner` calls (with the handle each released) and `create_pdf` calls;
- the PDF writes made (one per `create_pdf` call on a job with pages);
- the two script cursors.

The code is modelled in two layers:

- **Pure functions.** `Acquisition` states what every controller operation does to this record.
- **Classes.** `Jobs.ScanJob` and `Controller.SimpleCmdScan` mutate their fields as the Python objects do. Each method is proved equal to the corresponding function.

The lemmas in `AcquisitionProps` state the guarantees the procedures give (which documents are written, how often the scanner is closed, which temporary files a merged document uses), proved about those functions. Each scan procedure is split into `open_scanner` and what follows it (`Acquisition.SingleSidedAfterOpen`, `Acquisition.DoubleSidedAfterOpen`). The scan lemmas hold for any record that a successful open leaves, and `OpenOutcome` says when the open succeeds. `Scenarios` replays the repository's own test cases.

Files:

- `strings.dfy` holds string helpers:
  - Python's `str.split` and the `in` substring test;
  - `str.lower`;
  - `int()` on a string.
- `utils.dfy` holds `utils.get_default_paper_size`.
- `options.dfy` holds resolution parsing, the paper table and `set_paper_size`.
- `scan_job.dfy` holds `ScanJob`.
- `acquisition.dfy` holds the controller's behaviour as functions.
- `acquisition_props.dfy` holds the lemmas about those functions.
- `controller.dfy` holds the `SimpleCmdScan` class.
- `scenarios.dfy` replays the repository's test cases.

Some of the code's behaviour is easy to get wrong, and the model keeps it as written:

- **Failed open.** Every scan that gets past `open_scanner` closes the scanner exactly once (`AcquisitionProps.RunClosesOnce`). When `open_scanner` fails, both scan procedures return before `close_scanner` (simple_cmd_scan/scan_controller.py:273-275 and 308-310). When configuring the device fails after `sane.open`, the handle also stays set (`AcquisitionProps.FailedOpenSkipsScan`).
- **`join` with ADF.** On the flatbed, `join` collects every pass into one PDF. Under ADF, `_run_one_sided_scan` ignores the job it is given (simple_cmd_scan/scan_controller.py:234-235), so in `join` mode only the last feeder batch reaches the PDF (`AcquisitionProps.JoinJob`). The `--multidoc` help text (simple_cmd_scan/__main__.py:79-81) says that with `--adf` split is used and separate documents are created; the code writes neither separate documents nor the earlier batches.

Paper sizes are kept in tenths of a millimetre, because the source's values (215.9 and so on) are not integers.

## Model

| member | source | states |
|---|---|---|
| Jobs.ScanJob.constructor | simple_cmd_scan/scan_controller.py:32-36 | a new job has no pages, the given completeness and output settings |
| Jobs.ScanJob.NumPages | simple_cmd_scan/scan_controller.py:42-44 | the page count is the length of the job's page list |
| Jobs.ScanJob.AddImage | simple_cmd_scan/scan_controller.py:46-47 | the page is appended at the end; nothing else changes |
| Jobs.ScanJob.MarkComplete | simple_cmd_scan/scan_controller.py:49-50 | only the complete flag changes, to the given value |
| Jobs.ScanJob.MergeBackImages | simple_cmd_scan/scan_controller.py:52-60 | refuses (null) exactly when the page counts differ; otherwise a fresh job equal to MergeBack of the two, both inputs unchanged |
| Jobs.ScanJob.CreatePdf | simple_cmd_scan/scan_controller.py:62-87 | no document for an empty job; otherwise one document with the job's settings, the suffix and all pages in order |
| Jobs.MergeBack | simple_cmd_scan/scan_controller.py:52-60 | fails exactly on a count mismatch, never pads or truncates; the merge is complete, keeps the front's settings and has both counts' sum of pages |
| Jobs.MergedAt | simple_cmd_scan/scan_controller.py:58-59 | merged page 2i is front page i and page 2i+1 is back page n-1-i |
| Jobs.MergedMultiset | simple_cmd_scan/scan_controller.py:56-59 | the merge is a permutation of the front and back pages together |
| Jobs.MergedInverse | simple_cmd_scan/scan_controller.py:58-59 | front and back are recovered from the merge (even positions; odd positions reversed) |
| Jobs.MergedTestCase | tests/test_scan_job.py:33-41 | fronts 1,3,5 with backs 6,4,2 merge to 1..6 |
| Jobs.ReverseReverse | simple_cmd_scan/scan_controller.py:59 | reversing the back pages twice gives them back |
| Strings.Split | simple_cmd_scan/utils.py:26 | str.split gives at least one part and no part holds the separator |
| Strings.JoinSplit | simple_cmd_scan/utils.py:26 | joining the parts with the separator rebuilds the string |
| Strings.SplitHead | simple_cmd_scan/utils.py:26 | the first part is the text before the first separator |
| Strings.ContainsIff | simple_cmd_scan/utils.py:31 | the `in` substring test holds exactly when the pattern occurs at some position |
| Strings.Lower | simple_cmd_scan/scan_controller.py:124 | the result has the same length, no upper-case ASCII letter is left, each one becomes its lower-case counterpart and every other character is kept |
| Strings.LowerIdempotent | simple_cmd_scan/scan_controller.py:124 | lower-casing twice is lower-casing once |
| Strings.ParseShow | simple_cmd_scan/scan_controller.py:122 | int() reads back every integer written in decimal |
| Utils.DefaultPaperSize | simple_cmd_scan/utils.py:23-33 | the result is always `letter` or `a4` |
| Utils.DefaultPaperLetterIff | simple_cmd_scan/utils.py:31-33 | `letter` exactly when `US` or `CA` occurs in the inspected name, `a4` exactly when neither does |
| Utils.LcPaperTakesPrecedence | simple_cmd_scan/utils.py:25-29 | a non-empty LC_PAPER decides alone, through its part before the first `.` |
| Utils.EmptyLcPaperFallsBack | simple_cmd_scan/utils.py:25-33 | an empty LC_PAPER counts as unset; then the process locale decides, a missing one giving `a4` |
| Utils.UsLcPaperGivesLetter | simple_cmd_scan/utils.py:26-32 | `en_US.UTF-8` gives `letter` |
| Utils.CanadianLcPaperOverridesLocale | simple_cmd_scan/utils.py:25-32 | LC_PAPER `fr_CA` gives `letter` over a German process locale |
| Utils.GermanLcPaperOverridesLocale | simple_cmd_scan/utils.py:25-33 | LC_PAPER `de_DE.UTF-8` gives `a4` over a US process locale |
| Utils.LeadingDotGivesA4 | simple_cmd_scan/utils.py:26-33 | LC_PAPER `.UTF-8` inspects the empty name and gives `a4`, with no fallback to the locale |
| Utils.LowerCaseRegionGivesA4 | simple_cmd_scan/utils.py:31-33 | the test is case-sensitive (`en_us` gives `a4`); no locale at all gives `a4` |
| Options.ResolutionDpi | simple_cmd_scan/scan_controller.py:119-127 | the DPI is never 0; an absent or empty argument gives 150; a string int() reads as a non-zero value gives that value, one it reads as 0 gives 150; a non-integer gives 300 exactly when it lower-cases to `picture`, otherwise 150 |
| Options.ResolutionOfInteger | simple_cmd_scan/scan_controller.py:120-122 | every non-zero integer, written in decimal as str(n) gives it, is taken as it is, negative ones included |
| Options.ResolutionOfZero | simple_cmd_scan/scan_controller.py:122-127 | a value that parses as 0 falls back to 150 |
| Options.LetterIsNotInteger | simple_cmd_scan/scan_controller.py:121-124 | a word starting with a letter is not an integer, so the keyword table is consulted |
| Options.ResolutionKeywords | simple_cmd_scan/scan_controller.py:124-126 | `text` and `picture` in any letter case give 150 and 300 |
| Options.ResolutionExamples | tests/test_app_starter.py:44-55 | `picture` gives 300 and an absent argument 150 |
| Options.ResolutionCaseExamples | simple_cmd_scan/scan_controller.py:124-126 | `PiCtUrE` gives 300 and `Text` gives 150 |
| Options.DefaultPaperSize | simple_cmd_scan/scan_controller.py:136-147 | the controller's default is a key of the paper table, `letter` or `a4` |
| Options.DefaultPaperSizesAgree | simple_cmd_scan/scan_controller.py:136-147 | the controller's copy and utils.get_default_paper_size agree on every input |
| Options.ChoosePaper | simple_cmd_scan/scan_controller.py:156-165 | the chosen format is always in the table |
| Options.ChoosePaperRule | simple_cmd_scan/scan_controller.py:156-163 | a supplied name is matched case-insensitively; an unsupported one is reported and replaced by the locale default; none gives the default silently |
| Options.ChoosePaperExamples | simple_cmd_scan/scan_controller.py:103-107 | `A4`, `Letter`, `Legal` select their entries; `B5` is reported |
| Options.Configure | simple_cmd_scan/scan_controller.py:109-129 | the resolution is never 0, the file name template never empty, the output directory empty only if the working directory is |
| Acquisition.Indices | simple_cmd_scan/scan_controller.py:259-260 | the feeder's page indices are offset, offset+1, ... one per frame |
| Acquisition.HandleSaneErrorAsWritten | simple_cmd_scan/scan_controller.py:225-231 | (as written) a job comes back exactly for the jam message, with its pages kept and marked incomplete; any other message gives none |
| Acquisition.HandleSaneError | simple_cmd_scan/scan_controller.py:225-231 | (corrected) the job keeps its pages and settings and is marked incomplete |
| AcquisitionProps.HandleSaneErrorAgreesOnJam | simple_cmd_scan/scan_controller.py:225-231 | the handler as written returns the job exactly for the jam message, and then as the corrected one does |
| AcquisitionProps.NonJamSaneErrorEscapes | simple_cmd_scan/scan_controller.py:225-231 | for `Invalid argument` the handler as written gives no job; the corrected one keeps it, incomplete |
| AcquisitionProps.FlatbedPassOutcome | simple_cmd_scan/scan_controller.py:233-254 | a flatbed pass appends exactly one page with index pages+offset+1 when captured; on any error it keeps the pages and marks the job incomplete; never aborts |
| AcquisitionProps.FeederPassOutcome | simple_cmd_scan/scan_controller.py:256-270 | a feeder pass returns a fresh job with one index per frame from offset on, complete exactly when the feeder ran dry |
| AcquisitionProps.PassPages | simple_cmd_scan/scan_controller.py:233-270 | a pass numbers its pages consecutively from offset+1 (flatbed, at most one page) or offset (ADF) |
| AcquisitionProps.OpenOutcome | simple_cmd_scan/scan_controller.py:183-209 | NO_SCANNER exactly when no device is named or found; OK exactly when a device is chosen and opens with the configured settings; the first listed id is used; a named device is the one opened; NO_SCANNER leaves the record untouched; a configure failure leaves the handle set; files, captures and closes untouched |
| AcquisitionProps.FailedOpenSkipsScan | simple_cmd_scan/scan_controller.py:272-275 | after a failed open both scan procedures return its code without capturing, writing or closing |
| AcquisitionProps.PassesMeaning | simple_cmd_scan/scan_controller.py:283-298 | the number of passes is 1..MAX_SCANS; every prompt before the last was Enter and the last was end-of-input or the cap |
| AcquisitionProps.Chain | simple_cmd_scan/scan_controller.py:279-284 | after at least one pass, or from a given job, a job is pending |
| AcquisitionProps.SplitCallsDocuments | simple_cmd_scan/scan_controller.py:288-290 | split mode writes the k-th pass as the k-th document, built from a fresh job, and closes nothing in between |
| AcquisitionProps.JoinLoop | simple_cmd_scan/scan_controller.py:283-298 | outside split mode the loop carries the job from pass to pass, writes nothing, and advances captures and prompts by the pass count |
| AcquisitionProps.SplitLoop | simple_cmd_scan/scan_controller.py:283-298 | in split mode the loop writes one document per pass and leaves no job pending |
| AcquisitionProps.FeederChainKeepsLastBatch | simple_cmd_scan/scan_controller.py:234-235 | under ADF a job passed in is ignored, so after n passes only the last feeder batch is pending |
| AcquisitionProps.FlatbedChain | simple_cmd_scan/scan_controller.py:239-248 | flatbed passes on one job append the captured pages with consecutive indices; it stays complete only if every pass captured |
| AcquisitionProps.FlatbedStartsFresh | simple_cmd_scan/scan_controller.py:278-284 | a loop started with no job equals one started with an empty complete job, so unknown modes act like join |
| AcquisitionProps.SingleDocumentScan | simple_cmd_scan/scan_controller.py:277-305 | after any successful open, with no multidoc mode: one pass, no prompt, close, then one create_pdf call |
| AcquisitionProps.SplitScan | simple_cmd_scan/scan_controller.py:277-305 | after any successful open, split mode: n passes (1..MAX_SCANS) as the operator decides, one document each, then one close and nothing more |
| AcquisitionProps.JoinScan | simple_cmd_scan/scan_controller.py:277-305 | after any successful open, other modes: n passes (1..MAX_SCANS) as the operator decides, close, then one create_pdf call on the job they built |
| AcquisitionProps.JoinJob | simple_cmd_scan/scan_controller.py:233-284 | that job: on the flatbed its pages are 1..m for the m captured pages, complete iff every pass captured; under ADF only the last feeder batch |
| AcquisitionProps.SingleSidedClosesOnce | simple_cmd_scan/scan_controller.py:277-305 | after a successful open: RET_OK, exactly one close, handle cleared, 1..MAX_SCANS captures |
| AcquisitionProps.DoubleSidedOutcomes | simple_cmd_scan/scan_controller.py:312-357 | after any successful open, the five endings with their exact logs: front partial; abort at flip; back partial; count mismatch (each RET_ERR with its documents); one merged document and RET_OK. Close comes before the count check; at most two captures and one prompt |
| AcquisitionProps.DoubleSidedClosesOnce | simple_cmd_scan/scan_controller.py:313-341 | after a successful open the scanner is closed exactly once whichever way the procedure ends |
| AcquisitionProps.DoubleSidedMergedPages | simple_cmd_scan/scan_controller.py:331-355 | after any successful open, on RET_OK the sides have equal counts n and the merged pages are a permutation of the 2n temp-file indices, so no two pages share a file |
| AcquisitionProps.MergedIndices | simple_cmd_scan/scan_controller.py:331-355 | merging the runs start..start+n-1 and start+n..start+2n-1 uses each index once |
| AcquisitionProps.RunClosesOnce | simple_cmd_scan/scan_controller.py:359-378 | outside find mode, run closes the scanner exactly once when the open succeeds and never when it fails |
| AcquisitionProps.RunFindMode | simple_cmd_scan/scan_controller.py:359-370 | find mode only lists: RET_NO_SCANNER exactly when no device is found, RET_OK otherwise, nothing else changes |
| AcquisitionProps.LogConcat | simple_cmd_scan/scan_controller.py:62-65 | the create_pdf calls, closes and writes of a log add up over concatenation |
| AcquisitionProps.StepsKeepConsistent | simple_cmd_scan/scan_controller.py:62-65 | create_pdf, close, prompt and capture keep the list of writes equal to the create_pdf calls on jobs with pages |
| AcquisitionProps.OpenKeepsConsistent | simple_cmd_scan/scan_controller.py:183-209 | opening keeps that invariant |
| AcquisitionProps.LoopKeepsConsistent | simple_cmd_scan/scan_controller.py:283-298 | the single-sided loop keeps that invariant |
| AcquisitionProps.SingleSidedKeepsConsistent | simple_cmd_scan/scan_controller.py:277-305 | scan_single_sided after the open keeps that invariant |
| AcquisitionProps.DoubleSidedKeepsConsistent | simple_cmd_scan/scan_controller.py:312-357 | scan_double_sided after the open keeps that invariant on all five endings |
| AcquisitionProps.RunKeepsConsistent | simple_cmd_scan/scan_controller.py:359-378 | on every path of run a write is made for exactly each create_pdf call on a job with pages |
| Controller.SimpleCmdScan.constructor | simple_cmd_scan/scan_controller.py:109-135 | settings as Configure derives them; no handle, nothing logged or written |
| Controller.SimpleCmdScan.OpenScanner | simple_cmd_scan/scan_controller.py:183-209 | return code and new state are those of OpenSpec |
| Controller.SimpleCmdScan.CloseScanner | simple_cmd_scan/scan_controller.py:211-215 | the handle is released and cleared, the close is logged every time |
| Controller.SimpleCmdScan.Emit | simple_cmd_scan/scan_controller.py:62-87 | the create_pdf call is logged and a write made only for a job with pages |
| Controller.SimpleCmdScan.Prompt | simple_cmd_scan/scan_controller.py:292-294 | the answer is the operator's next one and the prompt cursor advances |
| Controller.SimpleCmdScan.HandleSaneError | simple_cmd_scan/scan_controller.py:225-231 | the job is marked incomplete, pages kept; the error is reported exactly for the jam message |
| Controller.SimpleCmdScan.RunMultiScan | simple_cmd_scan/scan_controller.py:256-270 | the loop over the feeder gives exactly FeederPass for the next feeder reply, in a fresh job |
| Controller.SimpleCmdScan.RunOneSidedScan | simple_cmd_scan/scan_controller.py:233-254 | the pass equals PassSpec; the given job is updated in place on the flatbed; under ADF it is left unchanged and a fresh one is returned, as it is without a job |
| Controller.SimpleCmdScan.ScanIteration | simple_cmd_scan/scan_controller.py:284-294 | one loop iteration advances LoopSpec by one step, or ends it with the job pending and the state reached |
| Controller.SimpleCmdScan.ScanPasses | simple_cmd_scan/scan_controller.py:282-298 | the pass loop's pending job and final state are those LoopSpec gives from the job it starts with |
| Controller.SimpleCmdScan.ScanSingleSided | simple_cmd_scan/scan_controller.py:272-305 | return code and final state equal SingleSidedSpec |
| Controller.SimpleCmdScan.ScanDoubleSided | simple_cmd_scan/scan_controller.py:307-357 | return code and final state equal DoubleSidedSpec |
| Controller.SimpleCmdScan.ScanBothSides | simple_cmd_scan/scan_controller.py:312-357 | after the open, return code and final state equal DoubleSidedAfterOpen |
| Controller.SimpleCmdScan.Run | simple_cmd_scan/scan_controller.py:359-378 | return code and final state equal RunSpec |
| Scenarios.SingleSidedScenario | tests/test_simple_cmd_scan.py:63-70 | one device, no multidoc: RET_OK, one capture, one create_pdf call |
| Scenarios.FeederDoubleSidedScenario | tests/test_simple_cmd_scan.py:72-83 | ADF double-sided with an empty feeder: RET_OK, two feeder passes, one create_pdf call and no file |
| Scenarios.SplitScenario | tests/test_simple_cmd_scan.py:85-95 | split with Enter then end-of-input: RET_OK and two create_pdf calls |
| Scenarios.JoinScenario | tests/test_simple_cmd_scan.py:97-106 | join with Enter then end-of-input: RET_OK, one create_pdf call holding pages 1 and 2 |

## Left out

- The SANE driver (`sane.init`, `get_devices`, `open`, the property setters, `scan`, `multi_scan`, `exit`) is a foreign library. It is replaced by the scripted replies in `Env`, and `sane.exit` is folded into the logged close.
- An exception from `list_scanners` inside `open_scanner` is not modelled separately. `get_devices` is taken to return a list.
- Image contents, `_save_single_page`, RGBA to RGB conversion, PDF assembly and the file write are left out. A document is its directory, name template, suffix and page indices.
- `datetime.strftime` expansion of the file name, `os.path.join` and the temporary directory are left out.
- Logging, `log_and_print`, quiet mode and console output are left out. Only whether a driver error is reported is kept (`Controller.SimpleCmdScan.HandleSaneError`).
- `input()` and `EOFError` are modelled as the `answers` script. A `KeyboardInterrupt` and the `__main__` entry point are left out.
- Strings.Lower and Strings.ParseInt: only ASCII letter case is folded, and only the listed ASCII/Latin-1 whitespace and ASCII digits are recognised. Python's full Unicode rules for `str.lower` and `int()` are wider.
- Acquisition.FlatbedPass, Acquisition.FeederPass, Acquisition.SingleSidedSpec, Acquisition.DoubleSidedSpec, Acquisition.RunSpec (and the controller methods proved equal to them): they use the corrected `Acquisition.HandleSaneError`. As written, a SANE error other than the jam raises `TypeError` out of the capture pass. The `finally` blocks still close the scanner, and single-sided `join` still writes its pending job. Double-sided writes no `_front_partial` or `_back_partial` document, and `run` ends with an uncaught exception, because `__main__` catches only `KeyboardInterrupt`. The model does not follow that exception path.
- File names: `strftime` expansion of the template is not modelled, so two writes whose names expand to the same path (two split documents in the same minute with the default template, or any template without time fields) leave only the last file on disk. `Acquisition.Obs.files` lists writes, not distinct files.
- Acquisition.Env: driver and operator scripts never run out. A mock that raises after its last reply is not modelled.
- `utils.test_write_to_folder` is filesystem I/O and is not part of this model.
- The floating-point millimetre dimensions of PAPER_SIZES_MM are kept as integer tenths of a millimetre.
- The merge test constructs `ScanJob()` without the two arguments its constructor requires. Only its interleaving data is used (`Jobs.MergedTestCase`).

## Findings

| source | as written | input that shows it | evidently intended | confidence | as-written member | corrected member |
|---|---|---|---|---|---|---|
| simple_cmd_scan/scan_controller.py:230-231 | for a driver error other than the feeder jam, `_handle_sane_error` calls `log.exception()` with no argument. `Logger.exception` requires a message, so a `TypeError` replaces the driver error and escapes the capture pass | `scanner.scan()` raising `sane.error("Invalid argument")` during a flatbed pass | log the error and return the job marked incomplete, as for the jam | high, not executed | AcquisitionProps.NonJamSaneErrorEscapes, Acquisition.HandleSaneErrorAsWritten | Acquisition.HandleSaneError |
