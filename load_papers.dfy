/**
 * The paper sample of the web front end (web/src/data/loadPapers.ts): two
 * constant lists of papers and the filters the pages use over their
 * concatenation.
 */
module LoadPapers {
  import opened Seqs

  /** How strongly a paper relies on machine learning (`NoImpact` is the source's `none`). */
  datatype MlImpact = NoImpact | Minimal | Moderate | Substantial | Core

  /** A paper record; the long prose fields are not part of this model. */
  datatype RawPaper = RawPaper(
    title: string,
    year: string,
    field: string,
    mlImpact: MlImpact,
    codeAvailability: bool,
    mlFrameworks: seq<string>,
    sourcesOfInspiration: seq<string>)

  const SAMPLE_ML_PAPERS: seq<RawPaper> := [
    RawPaper("Deep Batch Active Learning by Diverse, Uncertain Gradient Lower Bounds", "2019",
             "ComputerScience", Substantial, true, ["TensorFlow", "PyTorch"],
             ["Cohn et al., 1994", "Balcan et al., 2006"]),
    RawPaper("Recursive-NeRF: An Efficient and Dynamically Growing NeRF", "2022",
             "ComputerScience", Substantial, true, ["TensorFlow"],
             ["Neural Radiance Field (NeRF) method", "NSVF sampling strategy"]),
    RawPaper("CU-UD: text-mining drug and chemical-protein interactions with ensembles of BERT-based models", "2021",
             "ComputerScience", Substantial, true, ["TensorFlow"],
             ["BERT", "BioBERT", "PubMedBERT"])
  ]

  const SAMPLE_NONML_PAPERS: seq<RawPaper> := [
    RawPaper("Minimizing Weighted Sum Download Time for One-to-Many File Transfer in Peer-to-Peer Networks", "2011",
             "ComputerScience", NoImpact, false, [], [])
  ]

  /** The filter of `getMLPapers`: some impact beyond `none` and `minimal`. */
  predicate IsML(p: RawPaper)
  {
    p.mlImpact != NoImpact && p.mlImpact != Minimal
  }

  /** The filter of `getHighImpactPapers`: `substantial` or `core` impact. */
  predicate IsHighImpact(p: RawPaper)
  {
    p.mlImpact == Substantial || p.mlImpact == Core
  }

  function HasField(field: string): RawPaper -> bool
  {
    (p: RawPaper) => p.field == field
  }

  function HasCode(p: RawPaper): bool
  {
    p.codeAvailability
  }

  /** `getAllPapers`: the ML sample followed by the non-ML sample. */
  function AllPapers(): (r: seq<RawPaper>)
    ensures |r| == |SAMPLE_ML_PAPERS| + |SAMPLE_NONML_PAPERS|
    ensures r[..|SAMPLE_ML_PAPERS|] == SAMPLE_ML_PAPERS && r[|SAMPLE_ML_PAPERS|..] == SAMPLE_NONML_PAPERS
  {
    SAMPLE_ML_PAPERS + SAMPLE_NONML_PAPERS
  }

  /** `getPapersByField`: the papers of one field, in order. */
  function PapersByField(field: string): (r: seq<RawPaper>)
    ensures Selects(r, AllPapers(), HasField(field))
  {
    FilterSelects(AllPapers(), HasField(field));
    Filter(AllPapers(), HasField(field))
  }

  /** `getMLPapers`: the papers with an ML impact beyond `none`/`minimal`, in order. */
  function MLPapers(): (r: seq<RawPaper>)
    ensures Selects(r, AllPapers(), IsML)
  {
    FilterSelects(AllPapers(), IsML);
    Filter(AllPapers(), IsML)
  }

  /** `getPapersWithCode`: the papers whose code is available, in order. */
  function PapersWithCode(): (r: seq<RawPaper>)
    ensures Selects(r, AllPapers(), HasCode)
  {
    FilterSelects(AllPapers(), HasCode);
    Filter(AllPapers(), HasCode)
  }

  /** `getHighImpactPapers`: the `substantial`/`core` papers, in order. */
  function HighImpactPapers(): (r: seq<RawPaper>)
    ensures Selects(r, AllPapers(), IsHighImpact)
  {
    FilterSelects(AllPapers(), IsHighImpact);
    Filter(AllPapers(), IsHighImpact)
  }

  /**
   * For any paper list the high-impact selection is the high-impact part of
   * the ML selection, hence a subsequence of it: every high-impact paper is
   * an ML paper.
   */
  lemma HighImpactWithinML(papers: seq<RawPaper>)
    ensures Filter(papers, IsHighImpact) == Filter(Filter(papers, IsML), IsHighImpact)
    ensures IsSubsequence(Filter(papers, IsHighImpact), Filter(papers, IsML))
  {
    FilterNested(papers, IsML, IsHighImpact);
    FilterIsSubsequence(Filter(papers, IsML), IsHighImpact);
  }

  /** The getters' own results: high-impact papers are a subsequence of the ML papers. */
  lemma HighImpactPapersWithinMLPapers()
    ensures IsSubsequence(HighImpactPapers(), MLPapers())
  {
    HighImpactWithinML(AllPapers());
  }

  /** Every ML sample paper is a `substantial` ComputerScience paper with code; the non-ML one has no ML impact and no code. */
  lemma SampleAttributes()
    ensures forall i :: 0 <= i < |SAMPLE_ML_PAPERS| ==>
              SAMPLE_ML_PAPERS[i].mlImpact == Substantial && SAMPLE_ML_PAPERS[i].codeAvailability
              && SAMPLE_ML_PAPERS[i].field == "ComputerScience"
    ensures forall i :: 0 <= i < |SAMPLE_NONML_PAPERS| ==>
              SAMPLE_NONML_PAPERS[i].mlImpact == NoImpact && !SAMPLE_NONML_PAPERS[i].codeAvailability
              && SAMPLE_NONML_PAPERS[i].field == "ComputerScience"
  {
  }

  /** Selecting from the sample keeps the ML papers when `keep` passes all of them and drops the non-ML paper when it fails it. */
  lemma {:induction false} SampleFilter(keep: RawPaper -> bool)
    requires forall i :: 0 <= i < |SAMPLE_ML_PAPERS| ==> keep(SAMPLE_ML_PAPERS[i])
    requires forall i :: 0 <= i < |SAMPLE_NONML_PAPERS| ==> !keep(SAMPLE_NONML_PAPERS[i])
    ensures Filter(AllPapers(), keep) == SAMPLE_ML_PAPERS
  {
    FilterAppend(SAMPLE_ML_PAPERS, SAMPLE_NONML_PAPERS, keep);
    FilterAll(SAMPLE_ML_PAPERS, keep);
    FilterNone(SAMPLE_NONML_PAPERS, keep);
  }

  /** On the sample, the three ML papers are the high-impact ones, the ML ones and the ones with code. */
  lemma SampleSelections()
    ensures HighImpactPapers() == SAMPLE_ML_PAPERS
    ensures MLPapers() == SAMPLE_ML_PAPERS
    ensures SAMPLE_NONML_PAPERS[0] !in MLPapers()
    ensures PapersWithCode() == SAMPLE_ML_PAPERS
  {
    SampleAttributes();
    SampleFilter(IsHighImpact);
    SampleFilter(IsML);
    SampleFilter(HasCode);
  }

  /** Every sample paper is a ComputerScience paper. */
  lemma SampleFields()
    ensures PapersByField("ComputerScience") == AllPapers()
  {
    SampleAttributes();
    var all := AllPapers();
    assert forall i :: 0 <= i < |all| ==> HasField("ComputerScience")(all[i]);
    FilterAll(all, HasField("ComputerScience"));
  }
}
