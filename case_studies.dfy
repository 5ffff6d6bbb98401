/**
 * The case-study data model (declared in web/src/data/mockCaseStudies.ts and
 * reused by web/src/data/realCaseStudies.ts), the three lookups both data
 * files define over their own arrays, and the well-formedness conditions
 * their literal data meets.
 */
module CaseStudies {
  import opened Wrappers
  import opened Seqs

  datatype CaseEventType = Method | DomainApplication | Release | Replication | Correction | Outcome | Media

  /** A timeline event; the long `description` text is not part of this model. */
  datatype CaseEvent = CaseEvent(
    id: string,
    caseId: string,
    date: string,
    year: int,
    eventType: CaseEventType,
    title: string,
    citations: int,
    codeAvailable: bool,
    dataAvailable: bool,
    replicationAttempts: int,
    corrections: int,
    patents: int,
    clinicalStage: Option<string>,
    mediaMentions: int,
    policyMentions: int,
    mlImpactScore: int,
    codeReproScore: int,
    attribution: real,
    accelerationMonths: int,
    efficiencyProxy: int)

  datatype HeadlineMetrics = HeadlineMetrics(mlImpactScore: int, codeAvailabilityRate: real)

  /** A case study; the long `summary` text is not part of this model. */
  datatype CaseStudy = CaseStudy(
    id: string,
    title: string,
    domain: string,
    startYear: int,
    endYear: int,
    keywords: seq<string>,
    headlineMetrics: HeadlineMetrics)

  // ---------------------------------------------------------------------------
  // Lookups
  // ---------------------------------------------------------------------------

  /** `r` is what `studies.find(study => study.id === id)` yields: the first match, or nothing exactly when none matches. */
  ghost predicate IsFirstStudyWithId(studies: seq<CaseStudy>, id: string, r: Option<CaseStudy>)
  {
    && (r.None? <==> forall i :: 0 <= i < |studies| ==> studies[i].id != id)
    && (r.Some? ==> exists i :: 0 <= i < |studies| && studies[i] == r.value && r.value.id == id
                                && forall j :: 0 <= j < i ==> studies[j].id != id)
  }

  /** `r` is what `events.find(event => event.id === id)` yields. */
  ghost predicate IsFirstEventWithId(events: seq<CaseEvent>, id: string, r: Option<CaseEvent>)
  {
    && (r.None? <==> forall i :: 0 <= i < |events| ==> events[i].id != id)
    && (r.Some? ==> exists i :: 0 <= i < |events| && events[i] == r.value && r.value.id == id
                                && forall j :: 0 <= j < i ==> events[j].id != id)
  }

  /** The events of one case study. */
  function OfCase(caseId: string): CaseEvent -> bool
  {
    (e: CaseEvent) => e.caseId == caseId
  }

  /** `getCaseStudyById` over a given array. */
  function StudyWithId(studies: seq<CaseStudy>, id: string): (r: Option<CaseStudy>)
    ensures IsFirstStudyWithId(studies, id, r)
  {
    Find(studies, (s: CaseStudy) => s.id == id)
  }

  /** `getEventsByCaseId` over a given array. */
  function EventsWithCaseId(events: seq<CaseEvent>, caseId: string): (r: seq<CaseEvent>)
    ensures Selects(r, events, OfCase(caseId))
  {
    FilterSelects(events, OfCase(caseId));
    Filter(events, OfCase(caseId))
  }

  /** `getEventById` over a given array. */
  function EventWithId(events: seq<CaseEvent>, id: string): (r: Option<CaseEvent>)
    ensures IsFirstEventWithId(events, id, r)
  {
    Find(events, (e: CaseEvent) => e.id == id)
  }

  // ---------------------------------------------------------------------------
  // Well-formed data
  // ---------------------------------------------------------------------------

  /** The headline metrics lie in their documented ranges (0..100 and 0..1) and the years are ordered. */
  predicate StudyInRange(s: CaseStudy)
  {
    && 0 <= s.headlineMetrics.mlImpactScore <= 100
    && 0.0 <= s.headlineMetrics.codeAvailabilityRate <= 1.0
    && s.startYear <= s.endYear
  }

  /** The event scores lie in their documented ranges: 0..100, 0..100 and 0..1. */
  predicate ScoresInRange(e: CaseEvent)
  {
    && 0 <= e.mlImpactScore <= 100
    && 0 <= e.codeReproScore <= 100
    && 0.0 <= e.attribution <= 1.0
  }

  /** Event `e` belongs to study `s` and falls within its years. */
  predicate Fits(e: CaseEvent, s: CaseStudy)
  {
    e.caseId == s.id && s.startYear <= e.year <= s.endYear
  }

  /** Event `e` belongs to one of the studies and falls within its years. */
  ghost predicate FitsSome(e: CaseEvent, studies: seq<CaseStudy>)
  {
    exists j :: 0 <= j < |studies| && Fits(e, studies[j])
  }

  /** Every event belongs to one of the studies and falls within its years. */
  ghost predicate EventsFit(events: seq<CaseEvent>, studies: seq<CaseStudy>)
  {
    forall i :: 0 <= i < |events| ==> FitsSome(events[i], studies)
  }

  predicate DistinctIds(studies: seq<CaseStudy>)
  {
    forall i, j :: 0 <= i < j < |studies| ==> studies[i].id != studies[j].id
  }

  /** A run of events that all belong to the study at index `j`. */
  lemma {:induction false} SectionFits(section: seq<CaseEvent>, studies: seq<CaseStudy>, j: nat)
    requires j < |studies|
    requires forall i :: 0 <= i < |section| ==> Fits(section[i], studies[j])
    ensures EventsFit(section, studies)
  {
    forall i | 0 <= i < |section|
      ensures FitsSome(section[i], studies)
    {
      assert Fits(section[i], studies[j]);
    }
  }

  lemma EventsFitAppend(a: seq<CaseEvent>, b: seq<CaseEvent>, studies: seq<CaseStudy>)
    requires EventsFit(a, studies) && EventsFit(b, studies)
    ensures EventsFit(a + b, studies)
  {
    forall i | 0 <= i < |a + b|
      ensures FitsSome((a + b)[i], studies)
    {
      if i < |a| {
        assert (a + b)[i] == a[i];
      } else {
        assert (a + b)[i] == b[i - |a|];
      }
    }
  }

  /**
   * When the study ids are distinct and every event fits some study, looking
   * up an event's `caseId` finds the study it fits: its year lies within the
   * study's range.
   */
  lemma {:induction false} LookupFindsOwnStudy(events: seq<CaseEvent>, studies: seq<CaseStudy>, i: nat)
    requires DistinctIds(studies) && EventsFit(events, studies) && i < |events|
    ensures var s := StudyWithId(studies, events[i].caseId);
            s.Some? && s.value.startYear <= events[i].year <= s.value.endYear
  {
    var e := events[i];
    assert FitsSome(e, studies);
    var j :| 0 <= j < |studies| && Fits(e, studies[j]);
    var s := StudyWithId(studies, e.caseId);
    assert s.Some?;
    var k :| 0 <= k < |studies| && studies[k] == s.value && s.value.id == e.caseId
             && forall m :: 0 <= m < k ==> studies[m].id != e.caseId;
    assert k <= j;
    assert k == j;
  }

  /** A run of events of one case is kept whole by a query for that case and dropped by any other. */
  lemma {:induction false} SectionOfCase(section: seq<CaseEvent>, c: string, query: string)
    requires forall i :: 0 <= i < |section| ==> section[i].caseId == c
    ensures EventsWithCaseId(section, query) == if c == query then section else []
  {
    if c == query {
      FilterAll(section, OfCase(query));
    } else {
      FilterNone(section, OfCase(query));
    }
  }
}
