/**
 * The case studies derived from the paper sample
 * (web/src/data/realCaseStudies.ts): two generator functions returning
 * literal arrays, the constants holding their results, and the three lookups
 * over those constants.
 */
module RealCaseStudies {
  import opened Wrappers
  import opened Seqs
  import opened CaseStudies

  /**
   * `generateRealCaseStudies`: five studies with distinct ids, headline
   * metrics in range and ordered years. The high-impact paper list it
   * fetches is never used, so it is not an input here.
   */
  function GenerateRealCaseStudies(): (r: seq<CaseStudy>)
    ensures |r| == 5 && DistinctIds(r)
    ensures forall i :: 0 <= i < |r| ==> StudyInRange(r[i])
  {
    [
      CaseStudy("badge-active-learning", "BADGE: Deep Batch Active Learning", "Machine Learning", 2019, 2024,
                 ["active learning", "deep learning", "gradient embeddings", "uncertainty sampling"],
                 HeadlineMetrics(92, 1.0)),
      CaseStudy("recursive-nerf", "Recursive-NeRF: Efficient Scene Rendering", "Computer Vision", 2022, 2024,
                 ["neural radiance fields", "3D rendering", "computer vision", "efficiency"],
                 HeadlineMetrics(89, 1.0)),
      CaseStudy("bert-drug-discovery", "BERT-based Drug-Protein Interaction Mining", "Computational Biology", 2021, 2024,
                 ["BERT", "drug discovery", "protein interactions", "NLP"],
                 HeadlineMetrics(88, 1.0)),
      CaseStudy("ml-across-disciplines", "ML Adoption Across Scientific Disciplines", "Meta-Research", 2016, 2024,
                 ["meta-research", "ML adoption", "scientific impact", "reproducibility"],
                 HeadlineMetrics(78, 0.025)),
      CaseStudy("code-reproducibility-gap", "The Code Reproducibility Gap in Research", "Meta-Research", 2016, 2024,
                 ["reproducibility", "open science", "code availability", "research quality"],
                 HeadlineMetrics(65, 0.025))
    ]
  }

  /** `generateRealCaseEvents`: eight timeline events with in-range scores. */
  function GenerateRealCaseEvents(): (r: seq<CaseEvent>)
    ensures |r| == 8
    ensures forall i :: 0 <= i < |r| ==> ScoresInRange(r[i])
  {
    [
      CaseEvent("badge-1", "badge-active-learning", "2019-01-01", 2019, Method, "BADGE Algorithm Introduced",
               450, true, true, 23, 0, 2, None, 45, 3,
               92, 95, 0.9, 12, 180),
      CaseEvent("badge-2", "badge-active-learning", "2020-06-15", 2020, DomainApplication, "Industry Adoption",
               123, true, true, 45, 0, 8, None, 78, 5,
               88, 90, 0.75, 8, 220),
      CaseEvent("nerf-1", "recursive-nerf", "2022-03-01", 2022, Method, "Recursive-NeRF Published",
               234, true, true, 34, 1, 3, None, 89, 2,
               89, 92, 0.85, 15, 250),
      CaseEvent("nerf-2", "recursive-nerf", "2023-08-12", 2023, DomainApplication, "3D Content Creation Applications",
               156, true, false, 18, 0, 12, None, 234, 8,
               85, 75, 0.7, 10, 200),
      CaseEvent("bert-drug-1", "bert-drug-discovery", "2021-04-01", 2021, Method, "BERT Ensemble for Drug-Protein Interactions",
               189, true, true, 12, 0, 4, None, 67, 15,
               88, 88, 0.8, 18, 190),
      CaseEvent("bert-drug-2", "bert-drug-discovery", "2022-09-20", 2022, Outcome, "Pharmaceutical Company Adoption",
               78, false, false, 5, 0, 18, Some("Preclinical"), 145, 23,
               82, 45, 0.65, 12, 170),
      CaseEvent("meta-1", "ml-across-disciplines", "2024-01-01", 2024, Method, "Cross-Disciplinary ML Analysis Published",
               45, true, true, 8, 0, 0, None, 34, 12,
               78, 85, 0.7, 0, 120),
      CaseEvent("repro-1", "code-reproducibility-gap", "2024-01-01", 2024, Method, "Code Availability Crisis Documented",
               23, true, true, 3, 0, 0, None, 56, 18,
               65, 90, 0.8, 0, 100)
    ]
  }

  const REAL_CASE_STUDIES: seq<CaseStudy> := GenerateRealCaseStudies()
  const REAL_CASE_EVENTS: seq<CaseEvent> := GenerateRealCaseEvents()

  /** `getCaseStudyById`: the first real study with this id, or nothing exactly when there is none. */
  function GetCaseStudyById(id: string): (r: Option<CaseStudy>)
    ensures IsFirstStudyWithId(REAL_CASE_STUDIES, id, r)
  {
    StudyWithId(REAL_CASE_STUDIES, id)
  }

  /** `getEventsByCaseId`: every real event of the case and no other, in array order. */
  function GetEventsByCaseId(caseId: string): (r: seq<CaseEvent>)
    ensures Selects(r, REAL_CASE_EVENTS, OfCase(caseId))
  {
    EventsWithCaseId(REAL_CASE_EVENTS, caseId)
  }

  /** `getEventById`: the first real event with this id, or nothing exactly when there is none. */
  function GetEventById(id: string): (r: Option<CaseEvent>)
    ensures IsFirstEventWithId(REAL_CASE_EVENTS, id, r)
  {
    EventWithId(REAL_CASE_EVENTS, id)
  }

  /** Every generated event belongs to a generated study and falls within its years. */
  lemma RealEventsFit()
    ensures EventsFit(REAL_CASE_EVENTS, REAL_CASE_STUDIES)
  {
    var e := REAL_CASE_EVENTS;
    var s := REAL_CASE_STUDIES;
    forall i | 0 <= i < |e|
      ensures FitsSome(e[i], s)
    {
      if i < 2 {
        assert Fits(e[i], s[0]);
      } else if i < 4 {
        assert Fits(e[i], s[1]);
      } else if i < 6 {
        assert Fits(e[i], s[2]);
      } else if i == 6 {
        assert Fits(e[i], s[3]);
      } else {
        assert Fits(e[i], s[4]);
      }
    }
  }

  /** Looking up any real event's `caseId` finds a study whose years contain the event's year. */
  lemma EveryRealEventHasItsStudy(i: nat)
    requires i < |REAL_CASE_EVENTS|
    ensures var s := GetCaseStudyById(REAL_CASE_EVENTS[i].caseId);
            s.Some? && s.value.startYear <= REAL_CASE_EVENTS[i].year <= s.value.endYear
  {
    RealEventsFit();
    LookupFindsOwnStudy(REAL_CASE_EVENTS, REAL_CASE_STUDIES, i);
  }
}
