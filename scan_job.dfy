/**
 * ScanJob: the ordered page references of one output document, its
 * completeness flag and output settings; the front/back interleave; and
 * PDF assembly reduced to the document it would write.
 *
 * A page reference is the index `n` of the temporary file `scan_<n>.png`
 * the page image was saved to.
 */
module Jobs {
  import opened Base

  /** One create_pdf call: output directory, file-name template, suffix and pages. */
  datatype Pdf = Pdf(dir: string, template: string, suffix: string, pages: seq<nat>)

  /** The value of a ScanJob's fields. */
  datatype JobState = JobState(pages: seq<nat>, complete: bool, dir: string, template: string)

  // ---------------------------------------------------------------------
  // sequence operations behind merge_back_images
  // ---------------------------------------------------------------------

  /** `s[::-1]`. */
  function Reverse<T>(s: seq<T>): (r: seq<T>)
    ensures |r| == |s|
  {
    if s == [] then [] else Reverse(s[1..]) + [s[0]]
  }

  lemma {:induction false} ReverseAt<T>(s: seq<T>, k: nat)
    requires k < |s|
    ensures Reverse(s)[k] == s[|s| - 1 - k]
  {
    if k < |s| - 1 {
      ReverseAt(s[1..], k);
    }
  }

  /** Reversing twice gives the sequence back. */
  lemma ReverseReverse<T>(s: seq<T>)
    ensures Reverse(Reverse(s)) == s
  {
    forall k | 0 <= k < |s| ensures Reverse(Reverse(s))[k] == s[k] {
      ReverseAt(Reverse(s), k);
      ReverseAt(s, |s| - 1 - k);
    }
  }

  lemma {:induction false} ReverseMultiset<T>(s: seq<T>)
    ensures multiset(Reverse(s)) == multiset(s)
  {
    if s != [] {
      ReverseMultiset(s[1..]);
      assert s == [s[0]] + s[1..];
    }
  }

  /**
   * The list whose even positions (`[::2]`) are `evens` and whose odd
   * positions (`[1::2]`) are `odds`.
   */
  function Weave<T>(evens: seq<T>, odds: seq<T>): (r: seq<T>)
    requires |evens| == |odds|
    ensures |r| == 2 * |evens|
  {
    if evens == [] then [] else [evens[0], odds[0]] + Weave(evens[1..], odds[1..])
  }

  lemma {:induction false} WeaveAt<T>(evens: seq<T>, odds: seq<T>, i: nat)
    requires |evens| == |odds| && i < |evens|
    ensures Weave(evens, odds)[2 * i] == evens[i]
    ensures Weave(evens, odds)[2 * i + 1] == odds[i]
  {
    if i > 0 {
      WeaveAt(evens[1..], odds[1..], i - 1);
    }
  }

  /** `s[::2]`. */
  function Evens<T>(s: seq<T>): seq<T>
    decreases |s|
  {
    if s == [] then [] else if |s| == 1 then [s[0]] else [s[0]] + Evens(s[2..])
  }

  /** `s[1::2]`. */
  function Odds<T>(s: seq<T>): seq<T>
    decreases |s|
  {
    if |s| < 2 then [] else [s[1]] + Odds(s[2..])
  }

  /** Slicing a woven list back apart gives both inputs. */
  lemma {:induction false} UnweaveWeave<T>(evens: seq<T>, odds: seq<T>)
    requires |evens| == |odds|
    ensures Evens(Weave(evens, odds)) == evens
    ensures Odds(Weave(evens, odds)) == odds
  {
    if evens != [] {
      var w := Weave(evens, odds);
      assert w[2..] == Weave(evens[1..], odds[1..]);
      UnweaveWeave(evens[1..], odds[1..]);
    }
  }

  lemma {:induction false} WeaveMultiset<T>(evens: seq<T>, odds: seq<T>)
    requires |evens| == |odds|
    ensures multiset(Weave(evens, odds)) == multiset(evens) + multiset(odds)
  {
    if evens != [] {
      WeaveMultiset(evens[1..], odds[1..]);
      assert evens == [evens[0]] + evens[1..];
      assert odds == [odds[0]] + odds[1..];
    }
  }

  /** The reading order of a double-sided stack: fronts, with the backs un-reversed between them. */
  function Merged<T>(front: seq<T>, back: seq<T>): seq<T>
    requires |front| == |back|
  {
    Weave(front, Reverse(back))
  }

  /** merged[2i] is front[i] and merged[2i+1] is back[n-1-i]. */
  lemma MergedAt<T>(front: seq<T>, back: seq<T>, i: nat)
    requires |front| == |back| && i < |front|
    ensures |Merged(front, back)| == 2 * |front|
    ensures Merged(front, back)[2 * i] == front[i]
    ensures Merged(front, back)[2 * i + 1] == back[|back| - 1 - i]
  {
    WeaveAt(front, Reverse(back), i);
    ReverseAt(back, i);
  }

  /** Nothing is lost or duplicated: the merge is a permutation of both inputs together. */
  lemma MergedMultiset<T>(front: seq<T>, back: seq<T>)
    requires |front| == |back|
    ensures multiset(Merged(front, back)) == multiset(front) + multiset(back)
  {
    WeaveMultiset(front, Reverse(back));
    ReverseMultiset(back);
  }

  /** Both inputs can be recovered from the merge. */
  lemma MergedInverse<T>(front: seq<T>, back: seq<T>)
    requires |front| == |back|
    ensures Evens(Merged(front, back)) == front
    ensures Reverse(Odds(Merged(front, back))) == back
  {
    UnweaveWeave(front, Reverse(back));
    ReverseReverse(back);
  }

  /** The interleave the job tests check: fronts 1,3,5 and backs 6,4,2 read 1..6. */
  lemma MergedTestCase()
    ensures Merged(["1", "3", "5"], ["6", "4", "2"]) == ["1", "2", "3", "4", "5", "6"]
  {
    assert Reverse(["6", "4", "2"]) == ["2", "4", "6"] by {
      ReverseAt(["6", "4", "2"], 0);
      ReverseAt(["6", "4", "2"], 1);
      ReverseAt(["6", "4", "2"], 2);
    }
  }

  // ---------------------------------------------------------------------
  // job values
  // ---------------------------------------------------------------------

  /**
   * merge_back_images on job values: None where the source raises
   * ValueError (different page counts), otherwise a complete job with the
   * front's output settings and the merged pages.
   */
  function MergeBack(front: JobState, back: JobState): (r: Option<JobState>)
    ensures r.None? <==> |front.pages| != |back.pages|
    ensures r.Some? ==> r.value.complete && r.value.dir == front.dir && r.value.template == front.template
    ensures r.Some? ==> |r.value.pages| == |front.pages| + |back.pages|
  {
    if |front.pages| != |back.pages| then None
    else Some(JobState(Merged(front.pages, back.pages), true, front.dir, front.template))
  }

  /** The document a create_pdf call with this suffix describes. */
  function Document(j: JobState, suffix: string): Pdf
  {
    Pdf(j.dir, j.template, suffix, j.pages)
  }

  // ---------------------------------------------------------------------
  // the ScanJob object
  // ---------------------------------------------------------------------

  class ScanJob {
    var pages: seq<nat>
    var complete: bool
    const outputDir: string
    const outputFilename: string

    function Value(): JobState
      reads this
    {
      JobState(pages, complete, outputDir, outputFilename)
    }

    /** num_pages: the number of pages the job's value holds. */
    function NumPages(): (n: nat)
      reads this
      ensures n == |Value().pages|
    {
      |pages|
    }

    constructor (outputDir: string, outputFilename: string, defaultComplete: bool)
      ensures Value() == JobState([], defaultComplete, outputDir, outputFilename)
    {
      pages := [];
      complete := defaultComplete;
      this.outputDir := outputDir;
      this.outputFilename := outputFilename;
    }

    /** add_image: appends one page reference; nothing else changes. */
    method AddImage(page: nat)
      modifies this
      ensures Value() == old(Value()).(pages := old(pages) + [page])
    {
      pages := pages + [page];
    }

    /** mark_complete: sets the flag; the pages are kept. */
    method MarkComplete(c: bool)
      modifies this
      ensures Value() == old(Value()).(complete := c)
    {
      complete := c;
    }

    /** merge_back_images: a fresh merged job, or null where the source raises ValueError. */
    method MergeBackImages(back: ScanJob) returns (combined: ScanJob?)
      ensures combined == null <==> |pages| != |back.pages|
      ensures combined != null ==> fresh(combined) && combined.Value() == MergeBack(Value(), back.Value()).value
      ensures unchanged(this, back)
    {
      if |pages| != |back.pages| {
        return null;
      }
      combined := new ScanJob(outputDir, outputFilename, true);
      combined.pages := Merged(pages, back.pages);
    }

    /**
     * create_pdf: writes the document of this job with the given suffix, or
     * nothing (and no error) when the job has no pages.
     */
    method CreatePdf(suffix: string) returns (file: Option<Pdf>)
      ensures file.None? <==> pages == []
      ensures file.Some? ==> file.value == Pdf(outputDir, outputFilename, suffix, pages)
    {
      if pages == [] {
        return None;
      }
      file := Some(Document(Value(), suffix));
    }
  }
}
