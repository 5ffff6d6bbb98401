/**
 * The mock case-study data of the web front end
 * (web/src/data/mockCaseStudies.ts): six studies, thirty timeline events and
 * the three lookups over them.
 */
module MockCaseStudies {
  import opened Wrappers
  import opened Seqs
  import opened CaseStudies

  const MOCK_CASE_STUDIES: seq<CaseStudy> := [
    CaseStudy("alphafold", "AlphaFold: Protein Structure Prediction Revolution", "Biology", 2018, 2024,
               ["protein folding", "structural biology", "deep learning", "drug discovery"],
               HeadlineMetrics(98, 0.9)),
    CaseStudy("covid-drug", "COVID-19 Drug Discovery Acceleration", "Drug Discovery", 2020, 2024,
               ["covid-19", "drug discovery", "vaccines", "virtual screening"],
               HeadlineMetrics(94, 0.7)),
    CaseStudy("climate-forecast", "Neural Weather and Climate Forecasting", "Climate", 2019, 2024,
               ["climate modeling", "weather prediction", "neural networks", "extreme events"],
               HeadlineMetrics(89, 0.8)),
    CaseStudy("materials-discovery", "AI-Driven Materials Discovery for Clean Energy", "Materials", 2020, 2024,
               ["materials science", "clean energy", "catalysts", "batteries"],
               HeadlineMetrics(85, 0.6)),
    CaseStudy("neuroscience-tools", "Neural Decoding and Brain-Computer Interfaces", "Neuroscience", 2018, 2024,
               ["neuroscience", "brain-computer interface", "neural decoding", "neuroprosthetics"],
               HeadlineMetrics(82, 0.75)),
    CaseStudy("social-science-ml", "Computational Social Science Revolution", "Social Science", 2019, 2024,
               ["social science", "behavioral analysis", "computational methods", "policy"],
               HeadlineMetrics(76, 0.65))
  ]

  /** The AlphaFold events. */
  const ALPHAFOLD_EVENTS: seq<CaseEvent> := [
    CaseEvent("af-1", "alphafold", "2018-12-02", 2018, Method, "AlphaFold 1 CASP13 Victory",
              2847, false, false, 12, 0, 3, None, 156, 8,
              85, 20, 0.9, 24, 150),
    CaseEvent("af-2", "alphafold", "2020-11-30", 2020, Method, "AlphaFold 2 Achieves Atomic Accuracy",
              4521, false, false, 8, 0, 7, None, 892, 45,
              98, 25, 0.95, 48, 300),
    CaseEvent("af-3", "alphafold", "2021-07-15", 2021, Release, "AlphaFold Database Launch",
              1843, true, true, 45, 2, 12, None, 423, 67,
              92, 85, 0.8, 36, 250),
    CaseEvent("af-4", "alphafold", "2021-12-09", 2021, DomainApplication, "First Drug Discovery Applications",
              756, true, true, 23, 0, 18, Some("Preclinical"), 234, 12,
              88, 90, 0.7, 18, 180),
    CaseEvent("af-5", "alphafold", "2022-03-17", 2022, Replication, "ColabFold: Open Source Alternative",
              1234, true, true, 67, 1, 0, None, 89, 5,
              82, 95, 0.6, 12, 220)
  ]

  /** The first COVID drug-discovery events. */
  const COVID_EVENTS: seq<CaseEvent> := [
    CaseEvent("covid-1", "covid-drug", "2020-03-15", 2020, Method, "AI Drug Repurposing Initiatives",
              892, true, false, 15, 3, 5, None, 267, 89,
              78, 65, 0.8, 6, 120),
    CaseEvent("covid-2", "covid-drug", "2020-11-20", 2020, DomainApplication, "Pfizer/BioNTech Vaccine ML Design",
              2156, false, false, 8, 0, 24, Some("Phase III"), 1245, 234,
              94, 30, 0.9, 8, 280),
    CaseEvent("covid-3", "covid-drug", "2021-04-02", 2021, Outcome, "Emergency Use Authorization",
              567, false, false, 0, 0, 45, Some("Approved"), 2341, 456,
              96, 25, 0.85, 12, 350)
  ]

  /** The first climate-forecasting events. */
  const CLIMATE_EVENTS: seq<CaseEvent> := [
    CaseEvent("climate-1", "climate-forecast", "2019-09-12", 2019, Method, "Graph Neural Networks for Climate",
              445, true, true, 23, 1, 2, None, 67, 12,
              72, 85, 0.75, 15, 130),
    CaseEvent("climate-2", "climate-forecast", "2021-06-30", 2021, DomainApplication, "NOAA Adopts ML Weather Models",
              234, false, false, 5, 0, 8, None, 156, 78,
              84, 40, 0.6, 20, 190),
    CaseEvent("climate-3", "climate-forecast", "2022-12-05", 2022, Media, "ML Climate Models Predict Heat Dome",
              123, true, true, 12, 0, 1, None, 789, 134,
              89, 90, 0.8, 5, 160)
  ]

  /** Two more COVID events, listed among the climate events. */
  const LATE_COVID_EVENTS: seq<CaseEvent> := [
    CaseEvent("covid-4", "covid-drug", "2022-01-15", 2022, Release, "Open Drug Discovery Toolkit Release",
              334, true, true, 28, 1, 2, None, 145, 23,
              81, 92, 0.75, 15, 180),
    CaseEvent("covid-5", "covid-drug", "2023-09-08", 2023, Outcome, "Long COVID Drug Candidates",
              178, false, false, 3, 0, 12, Some("Phase I"), 412, 67,
              87, 35, 0.85, 18, 240)
  ]

  /** The remaining climate-forecasting events. */
  const CLIMATE_EVENTS_CONTINUED: seq<CaseEvent> := [
    CaseEvent("climate-4", "climate-forecast", "2023-07-14", 2023, Release, "Google's AI Weather Model Open Source",
              289, true, true, 15, 0, 4, None, 567, 89,
              91, 95, 0.9, 30, 220),
    CaseEvent("climate-5", "climate-forecast", "2024-03-22", 2024, Outcome, "IPCC Adopts ML Climate Projections",
              67, false, true, 8, 0, 0, None, 1234, 345,
              93, 80, 0.7, 36, 300)
  ]

  /** The materials-discovery events. */
  const MATERIALS_EVENTS: seq<CaseEvent> := [
    CaseEvent("materials-1", "materials-discovery", "2020-02-14", 2020, Method, "Graph Neural Networks for Materials",
              678, true, true, 34, 2, 6, None, 45, 8,
              79, 88, 0.85, 18, 145),
    CaseEvent("materials-2", "materials-discovery", "2021-08-23", 2021, DomainApplication, "Battery Electrolyte Discovery",
              445, false, false, 8, 0, 23, None, 234, 45,
              85, 45, 0.9, 24, 200),
    CaseEvent("materials-3", "materials-discovery", "2022-05-11", 2022, Release, "Materials Project ML Platform",
              356, true, true, 42, 0, 3, None, 123, 34,
              83, 90, 0.8, 12, 175),
    CaseEvent("materials-4", "materials-discovery", "2023-01-30", 2023, Outcome, "Toyota Partners for Catalyst Design",
              89, false, false, 2, 0, 18, None, 345, 56,
              88, 40, 0.75, 30, 250),
    CaseEvent("materials-5", "materials-discovery", "2024-02-14", 2024, Replication, "Independent Solar Cell Validation",
              23, true, true, 15, 1, 4, None, 78, 12,
              80, 95, 0.6, 8, 160)
  ]

  /** The neural-decoding events. */
  const NEURO_EVENTS: seq<CaseEvent> := [
    CaseEvent("neuro-1", "neuroscience-tools", "2018-06-15", 2018, Method, "Deep Learning for Neural Decoding",
              567, true, false, 18, 1, 8, None, 89, 15,
              78, 75, 0.9, 20, 140),
    CaseEvent("neuro-2", "neuroscience-tools", "2019-11-08", 2019, DomainApplication, "Paralyzed Patient Types with Thoughts",
              1234, false, false, 5, 0, 15, None, 2345, 123,
              92, 30, 0.85, 36, 280),
    CaseEvent("neuro-3", "neuroscience-tools", "2021-04-14", 2021, Release, "Neuralink Monkey Plays Pong",
              456, false, false, 8, 0, 34, None, 4567, 234,
              89, 25, 0.8, 24, 350),
    CaseEvent("neuro-4", "neuroscience-tools", "2022-08-24", 2022, Outcome, "FDA Approves BCI for ALS",
              234, false, false, 3, 0, 45, Some("Approved"), 1789, 345,
              95, 40, 0.9, 42, 400),
    CaseEvent("neuro-5", "neuroscience-tools", "2023-12-01", 2023, Replication, "Open Source BCI Platform Launch",
              112, true, true, 23, 2, 2, None, 234, 45,
              81, 88, 0.7, 15, 200)
  ]

  /** The computational social science events. */
  const SOCIAL_EVENTS: seq<CaseEvent> := [
    CaseEvent("social-1", "social-science-ml", "2019-03-20", 2019, Method, "Large Language Models for Social Analysis",
              789, true, false, 34, 3, 1, None, 156, 67,
              73, 80, 0.8, 18, 160),
    CaseEvent("social-2", "social-science-ml", "2020-09-15", 2020, DomainApplication, "COVID Misinformation Detection",
              445, false, true, 12, 1, 4, None, 567, 234,
              85, 65, 0.9, 8, 220),
    CaseEvent("social-3", "social-science-ml", "2021-06-12", 2021, Release, "HuggingFace Social Science Hub",
              567, true, true, 45, 0, 0, None, 234, 89,
              79, 95, 0.75, 12, 180),
    CaseEvent("social-4", "social-science-ml", "2022-11-30", 2022, Outcome, "EU Policy on Algorithmic Bias",
              134, false, true, 8, 0, 0, None, 1245, 567,
              88, 70, 0.85, 24, 300),
    CaseEvent("social-5", "social-science-ml", "2023-04-07", 2023, Replication, "Global Reproducibility Crisis Study",
              89, true, true, 156, 12, 0, None, 345, 123,
              76, 85, 0.6, 6, 140)
  ]

  /** `MOCK_CASE_EVENTS`: the runs above in array order. */
  const MOCK_CASE_EVENTS: seq<CaseEvent> :=
    ALPHAFOLD_EVENTS + COVID_EVENTS + CLIMATE_EVENTS + LATE_COVID_EVENTS + CLIMATE_EVENTS_CONTINUED
    + MATERIALS_EVENTS + NEURO_EVENTS + SOCIAL_EVENTS

  /** `getCaseStudyById`: the first mock study with this id, or nothing exactly when there is none. */
  function GetCaseStudyById(id: string): (r: Option<CaseStudy>)
    ensures IsFirstStudyWithId(MOCK_CASE_STUDIES, id, r)
  {
    StudyWithId(MOCK_CASE_STUDIES, id)
  }

  /** `getEventsByCaseId`: every mock event of the case and no other, in array order. */
  function GetEventsByCaseId(caseId: string): (r: seq<CaseEvent>)
    ensures Selects(r, MOCK_CASE_EVENTS, OfCase(caseId))
  {
    EventsWithCaseId(MOCK_CASE_EVENTS, caseId)
  }

  /** `getEventById`: the first mock event with this id, or nothing exactly when there is none. */
  function GetEventById(id: string): (r: Option<CaseEvent>)
    ensures IsFirstEventWithId(MOCK_CASE_EVENTS, id, r)
  {
    EventWithId(MOCK_CASE_EVENTS, id)
  }

  /** The mock studies have distinct ids, in-range metrics and ordered years. */
  lemma MockStudiesWellFormed()
    ensures DistinctIds(MOCK_CASE_STUDIES)
    ensures forall i :: 0 <= i < |MOCK_CASE_STUDIES| ==> StudyInRange(MOCK_CASE_STUDIES[i])
  {
  }

  /** Each of the first four runs of events belongs to one study, falls within its years and has in-range scores. */
  lemma EarlySections()
    ensures forall i :: 0 <= i < |ALPHAFOLD_EVENTS| ==>
              Fits(ALPHAFOLD_EVENTS[i], MOCK_CASE_STUDIES[0]) && ScoresInRange(ALPHAFOLD_EVENTS[i])
    ensures forall i :: 0 <= i < |COVID_EVENTS| ==>
              Fits(COVID_EVENTS[i], MOCK_CASE_STUDIES[1]) && ScoresInRange(COVID_EVENTS[i])
    ensures forall i :: 0 <= i < |CLIMATE_EVENTS| ==>
              Fits(CLIMATE_EVENTS[i], MOCK_CASE_STUDIES[2]) && ScoresInRange(CLIMATE_EVENTS[i])
    ensures forall i :: 0 <= i < |LATE_COVID_EVENTS| ==>
              Fits(LATE_COVID_EVENTS[i], MOCK_CASE_STUDIES[1]) && ScoresInRange(LATE_COVID_EVENTS[i])
  {
  }

  /** Each of the last four runs of events belongs to one study, falls within its years and has in-range scores. */
  lemma LateSections()
    ensures forall i :: 0 <= i < |CLIMATE_EVENTS_CONTINUED| ==>
              Fits(CLIMATE_EVENTS_CONTINUED[i], MOCK_CASE_STUDIES[2]) && ScoresInRange(CLIMATE_EVENTS_CONTINUED[i])
    ensures forall i :: 0 <= i < |MATERIALS_EVENTS| ==>
              Fits(MATERIALS_EVENTS[i], MOCK_CASE_STUDIES[3]) && ScoresInRange(MATERIALS_EVENTS[i])
    ensures forall i :: 0 <= i < |NEURO_EVENTS| ==>
              Fits(NEURO_EVENTS[i], MOCK_CASE_STUDIES[4]) && ScoresInRange(NEURO_EVENTS[i])
    ensures forall i :: 0 <= i < |SOCIAL_EVENTS| ==>
              Fits(SOCIAL_EVENTS[i], MOCK_CASE_STUDIES[5]) && ScoresInRange(SOCIAL_EVENTS[i])
  {
  }

  /** Every mock event belongs to a mock study and falls within its years. */
  lemma MockEventsFit()
    ensures EventsFit(MOCK_CASE_EVENTS, MOCK_CASE_STUDIES)
  {
    EarlySections();
    LateSections();
    var studies := MOCK_CASE_STUDIES;
    SectionFits(ALPHAFOLD_EVENTS, studies, 0);
    SectionFits(COVID_EVENTS, studies, 1);
    SectionFits(CLIMATE_EVENTS, studies, 2);
    SectionFits(LATE_COVID_EVENTS, studies, 1);
    SectionFits(CLIMATE_EVENTS_CONTINUED, studies, 2);
    SectionFits(MATERIALS_EVENTS, studies, 3);
    SectionFits(NEURO_EVENTS, studies, 4);
    SectionFits(SOCIAL_EVENTS, studies, 5);
    var e := ALPHAFOLD_EVENTS;
    EventsFitAppend(e, COVID_EVENTS, studies);
    e := e + COVID_EVENTS;
    EventsFitAppend(e, CLIMATE_EVENTS, studies);
    e := e + CLIMATE_EVENTS;
    EventsFitAppend(e, LATE_COVID_EVENTS, studies);
    e := e + LATE_COVID_EVENTS;
    EventsFitAppend(e, CLIMATE_EVENTS_CONTINUED, studies);
    e := e + CLIMATE_EVENTS_CONTINUED;
    EventsFitAppend(e, MATERIALS_EVENTS, studies);
    e := e + MATERIALS_EVENTS;
    EventsFitAppend(e, NEURO_EVENTS, studies);
    e := e + NEURO_EVENTS;
    EventsFitAppend(e, SOCIAL_EVENTS, studies);
  }

  /** Every mock event has its scores within the documented ranges. */
  lemma MockScoresInRange()
    ensures forall i :: 0 <= i < |MOCK_CASE_EVENTS| ==> ScoresInRange(MOCK_CASE_EVENTS[i])
  {
    EarlySections();
    LateSections();
  }

  /** Looking up any mock event's `caseId` finds a study whose years contain the event's year. */
  lemma EveryMockEventHasItsStudy(i: nat)
    requires i < |MOCK_CASE_EVENTS|
    ensures var s := GetCaseStudyById(MOCK_CASE_EVENTS[i].caseId);
            s.Some? && s.value.startYear <= MOCK_CASE_EVENTS[i].year <= s.value.endYear
  {
    MockStudiesWellFormed();
    MockEventsFit();
    LookupFindsOwnStudy(MOCK_CASE_EVENTS, MOCK_CASE_STUDIES, i);
  }

  /** Filtering the mock events filters each run separately. */
  lemma {:induction false} FilterByRuns(p: CaseEvent -> bool)
    ensures Filter(MOCK_CASE_EVENTS, p)
            == Filter(ALPHAFOLD_EVENTS, p) + Filter(COVID_EVENTS, p) + Filter(CLIMATE_EVENTS, p)
               + Filter(LATE_COVID_EVENTS, p) + Filter(CLIMATE_EVENTS_CONTINUED, p)
               + Filter(MATERIALS_EVENTS, p) + Filter(NEURO_EVENTS, p) + Filter(SOCIAL_EVENTS, p)
  {
    var e := ALPHAFOLD_EVENTS;
    FilterAppend(e, COVID_EVENTS, p);
    e := e + COVID_EVENTS;
    FilterAppend(e, CLIMATE_EVENTS, p);
    e := e + CLIMATE_EVENTS;
    FilterAppend(e, LATE_COVID_EVENTS, p);
    e := e + LATE_COVID_EVENTS;
    FilterAppend(e, CLIMATE_EVENTS_CONTINUED, p);
    e := e + CLIMATE_EVENTS_CONTINUED;
    FilterAppend(e, MATERIALS_EVENTS, p);
    e := e + MATERIALS_EVENTS;
    FilterAppend(e, NEURO_EVENTS, p);
    e := e + NEURO_EVENTS;
    FilterAppend(e, SOCIAL_EVENTS, p);
  }

  /** The case each run of events belongs to. */
  lemma RunCases()
    ensures forall i :: 0 <= i < |ALPHAFOLD_EVENTS| ==> ALPHAFOLD_EVENTS[i].caseId == "alphafold"
    ensures forall i :: 0 <= i < |COVID_EVENTS| ==> COVID_EVENTS[i].caseId == "covid-drug"
    ensures forall i :: 0 <= i < |CLIMATE_EVENTS| ==> CLIMATE_EVENTS[i].caseId == "climate-forecast"
    ensures forall i :: 0 <= i < |LATE_COVID_EVENTS| ==> LATE_COVID_EVENTS[i].caseId == "covid-drug"
    ensures forall i :: 0 <= i < |CLIMATE_EVENTS_CONTINUED| ==> CLIMATE_EVENTS_CONTINUED[i].caseId == "climate-forecast"
    ensures forall i :: 0 <= i < |MATERIALS_EVENTS| ==> MATERIALS_EVENTS[i].caseId == "materials-discovery"
    ensures forall i :: 0 <= i < |NEURO_EVENTS| ==> NEURO_EVENTS[i].caseId == "neuroscience-tools"
    ensures forall i :: 0 <= i < |SOCIAL_EVENTS| ==> SOCIAL_EVENTS[i].caseId == "social-science-ml"
  {
  }

  /**
   * Eight runs of which only the second and the fourth are non-empty join to
   * those two. Stated over arbitrary sequences so that the join is proved once,
   * without the verifier looking inside the literal event data.
   */
  lemma JoinSecondAndFourth(a: seq<CaseEvent>, b: seq<CaseEvent>, c: seq<CaseEvent>, d: seq<CaseEvent>,
                            e: seq<CaseEvent>, f: seq<CaseEvent>, g: seq<CaseEvent>, h: seq<CaseEvent>)
    requires a == [] && c == [] && e == [] && f == [] && g == [] && h == []
    ensures a + b + c + d + e + f + g + h == b + d
  {
  }

  /**
   * The AlphaFold and climate runs hold no COVID event. The query `q` is a
   * parameter equal to the literal, rather than the literal itself, so that the
   * filter is reasoned about run by run through `SectionOfCase` instead of being
   * unfolded over the literal data; the same holds for the lemmas below.
   */
  lemma NoCovidInEarlyRuns(q: string)
    requires q == "covid-drug"
    ensures Filter(ALPHAFOLD_EVENTS, OfCase(q)) == []
    ensures Filter(CLIMATE_EVENTS, OfCase(q)) == []
    ensures Filter(CLIMATE_EVENTS_CONTINUED, OfCase(q)) == []
  {
    RunCases();
    SectionOfCase(ALPHAFOLD_EVENTS, "alphafold", q);
    SectionOfCase(CLIMATE_EVENTS, "climate-forecast", q);
    SectionOfCase(CLIMATE_EVENTS_CONTINUED, "climate-forecast", q);
  }

  /** The materials, neuroscience and social science runs hold no COVID event (query given as `q`, as above). */
  lemma NoCovidInLateRuns(q: string)
    requires q == "covid-drug"
    ensures Filter(MATERIALS_EVENTS, OfCase(q)) == []
    ensures Filter(NEURO_EVENTS, OfCase(q)) == []
    ensures Filter(SOCIAL_EVENTS, OfCase(q)) == []
  {
    RunCases();
    SectionOfCase(MATERIALS_EVENTS, "materials-discovery", q);
    SectionOfCase(NEURO_EVENTS, "neuroscience-tools", q);
    SectionOfCase(SOCIAL_EVENTS, "social-science-ml", q);
  }

  /** The two COVID runs are kept whole (query given as `q`, as above). */
  lemma CovidRunsKept(q: string)
    requires q == "covid-drug"
    ensures Filter(COVID_EVENTS, OfCase(q)) == COVID_EVENTS
    ensures Filter(LATE_COVID_EVENTS, OfCase(q)) == LATE_COVID_EVENTS
  {
    RunCases();
    SectionOfCase(COVID_EVENTS, q, q);
    SectionOfCase(LATE_COVID_EVENTS, q, q);
  }

  /** The COVID events of the mock data, for a query given by value. */
  lemma CovidQuery(q: string)
    requires q == "covid-drug"
    ensures GetEventsByCaseId(q) == COVID_EVENTS + LATE_COVID_EVENTS
  {
    var p := OfCase(q);
    FilterByRuns(p);
    NoCovidInEarlyRuns(q);
    NoCovidInLateRuns(q);
    CovidRunsKept(q);
    JoinSecondAndFourth(Filter(ALPHAFOLD_EVENTS, p), Filter(COVID_EVENTS, p), Filter(CLIMATE_EVENTS, p),
                        Filter(LATE_COVID_EVENTS, p), Filter(CLIMATE_EVENTS_CONTINUED, p),
                        Filter(MATERIALS_EVENTS, p), Filter(NEURO_EVENTS, p), Filter(SOCIAL_EVENTS, p));
  }

  /** The five COVID events are gathered from both of their runs, in array order. */
  lemma CovidEventsGathered()
    ensures GetEventsByCaseId("covid-drug") == COVID_EVENTS + LATE_COVID_EVENTS
    ensures |GetEventsByCaseId("covid-drug")| == 5
  {
    CovidQuery("covid-drug");
  }
}
