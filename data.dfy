/**
 * The mock data store: studies, draft reports and cases, initialised from
 * storage or from seed lists, and `addStudy`, which files a new study
 * together with a draft report drafted from it.
 */
module Data {
  import opened Wrappers
  import opened Browser

  datatype Status = Processed | Pending
  datatype Sex = Male | Female | OtherSex
  datatype Modality = XRay | CT | MRI | US | OtherModality
  datatype Priority = Low | Normal | High

  /** A study's fields other than its id: what `addStudy` is given. */
  datatype StudyInfo = StudyInfo(
    fileName: string,
    patientName: string,
    status: Status,
    size: int,
    imageDataUrl: Option<string>,
    patientId: Option<string>,
    age: Option<int>,
    sex: Option<Sex>,
    modality: Option<string>,
    notes: Option<string>,
    studyDate: Option<string>)

  /** `{ id, ...info }`. */
  datatype Study = Study(id: string, info: StudyInfo)

  datatype Report = Report(
    id: string,
    title: string,
    summary: string,
    imageDataUrl: Option<string>,
    patientName: Option<string>,
    findings: Option<string>,
    impression: Option<string>,
    createdAt: Option<string>)

  datatype Case = Case(
    id: string,
    title: string,
    patientName: string,
    priority: Priority,
    modality: Option<Modality>,
    createdAt: Option<string>)

  const StudiesKey := "raa_studies"
  const ReportsKey := "raa_reports"
  const Placeholder := "/placeholder.jpg"
  const DraftFindings := "Findings: No acute cardiopulmonary abnormalities. Suspected fracture line with localized cortical disruption."
  const DraftImpression := "Impression: Findings suggest a likely non-displaced fracture; correlate clinically with point tenderness."

  function SeedStudy(id: string, fileName: string, patientName: string, status: Status, size: int, studyDate: string): Study
  {
    Study(id, StudyInfo(fileName, patientName, status, size, None, None, None, None, None, None, Some(studyDate)))
  }

  /**
   * The seed lists. Their ids come from the `nanoid()` calls made as the
   * module loads: `nanoid(i)` is the i-th, studies first, then reports, then cases.
   */
  function SeedStudies(nanoid: nat -> string): (r: seq<Study>)
    ensures |r| == 6
    ensures forall i :: 0 <= i < 6 ==> r[i].id == nanoid(i) && r[i].info.imageDataUrl.None?
  {
    [ SeedStudy(nanoid(0), "ankle_01.dcm", "Alex R.", Processed, 512_000, "2025-10-01"),
      SeedStudy(nanoid(1), "wrist_02.dcm", "Jamie K.", Processed, 760_000, "2025-10-02"),
      SeedStudy(nanoid(2), "knee_03.dcm", "Morgan S.", Pending, 680_000, "2025-10-03"),
      SeedStudy(nanoid(3), "elbow_04.dcm", "Taylor D.", Processed, 430_000, "2025-10-05"),
      SeedStudy(nanoid(4), "shoulder_05.dcm", "Riley P.", Pending, 900_000, "2025-10-06"),
      SeedStudy(nanoid(5), "hand_06.dcm", "Jordan L.", Processed, 370_000, "2025-10-08") ]
  }

  function SeedReport(id: string, title: string, summary: string, patientName: string, createdAt: string): Report
  {
    Report(id, title, summary, None, Some(patientName), None, None, Some(createdAt))
  }

  function SeedReports(nanoid: nat -> string): (r: seq<Report>)
    ensures |r| == 4
    ensures forall i :: 0 <= i < 4 ==> r[i].id == nanoid(6 + i) && r[i].imageDataUrl.None? && r[i].createdAt.Some?
  {
    [ SeedReport(nanoid(6), "Ankle X-ray - Draft", "Suspected distal fibula fracture. Review heatmap overlay.",
                 "Alex R.", "2025-10-01T09:12:00Z"),
      SeedReport(nanoid(7), "Wrist X-ray - Draft", "Possible scaphoid fracture. Correlate clinically.",
                 "Jamie K.", "2025-10-02T10:22:00Z"),
      SeedReport(nanoid(8), "Knee X-ray - Draft", "Joint effusion suspected; evaluate for tibial plateau fracture.",
                 "Morgan S.", "2025-10-03T13:45:00Z"),
      SeedReport(nanoid(9), "Elbow X-ray - Draft", "Consider radial head fracture; check posterior fat pad sign.",
                 "Taylor D.", "2025-10-05T08:03:00Z") ]
  }

  function SeedCases(nanoid: nat -> string): (r: seq<Case>)
    ensures |r| == 6
    ensures forall i :: 0 <= i < 6 ==> r[i].id == nanoid(10 + i)
  {
    [ Case(nanoid(10), "ER-1245", "Chris P.", High, Some(XRay), Some("2025-10-04")),
      Case(nanoid(11), "OP-9032", "Sam T.", Normal, Some(CT), Some("2025-10-03")),
      Case(nanoid(12), "ER-1288", "Dana Q.", High, Some(CT), Some("2025-10-06")),
      Case(nanoid(13), "OP-9101", "Lee W.", Low, Some(MRI), Some("2025-10-02")),
      Case(nanoid(14), "ER-1290", "Pat C.", Normal, Some(XRay), Some("2025-10-07")),
      Case(nanoid(15), "OP-9120", "Ari N.", High, Some(US), Some("2025-10-05")) ]
  }

  /** An object spread over defaults for one optional field: the record's own value wins when it has one. */
  function Spread<T>(default: Option<T>, own: Option<T>): Option<T>
  {
    if own.Some? then own else default
  }

  /**
   * `{ imageDataUrl: "/placeholder.jpg", createdAt: r.createdAt || now, ...r }`:
   * every field the record has is kept, and only a missing field takes its default.
   */
  function WithDefaults(r: Report, now: string): (d: Report)
    ensures d.id == r.id && d.title == r.title && d.summary == r.summary
    ensures d.patientName == r.patientName && d.findings == r.findings && d.impression == r.impression
    ensures d.imageDataUrl == (if r.imageDataUrl.Some? then r.imageDataUrl else Some(Placeholder))
    ensures d.createdAt == (if r.createdAt.Some? then r.createdAt else Some(now))
  {
    Report(r.id, r.title, r.summary,
           Spread(Some(Placeholder), r.imageDataUrl),
           r.patientName, r.findings, r.impression,
           Spread(Some(OrElse(r.createdAt, now)), r.createdAt))
  }

  /** `reports.map((r) => WithDefaults(r, now))`. */
  function AllWithDefaults(rs: seq<Report>, now: string): (ds: seq<Report>)
    ensures |ds| == |rs|
    ensures forall i :: 0 <= i < |rs| ==> ds[i] == WithDefaults(rs[i], now)
  {
    if rs == [] then [] else [WithDefaults(rs[0], now)] + AllWithDefaults(rs[1..], now)
  }

  /** The seed reports all carry a creation time, so the fallback only fills in the placeholder image. */
  lemma SeedFallbackOnlyAddsImage(nanoid: nat -> string, now: string)
    ensures var seeds := SeedReports(nanoid);
            var ds := AllWithDefaults(seeds, now);
            |ds| == 4 &&
            forall i :: 0 <= i < 4 ==>
              ds[i] == seeds[i].(imageDataUrl := Some(Placeholder))
  {
  }

  /**
   * A list initialiser: the stored list when there is a window and its entry
   * is present, non-empty and parses; the fallback otherwise.
   */
  function StoredOr<T>(hasWindow: bool, store: map<string, string>, key: string,
                       parse: string -> ParseResult<seq<T>>, fallback: seq<T>): (r: seq<T>)
    ensures hasWindow && key in store && store[key] != "" && parse(store[key]).Parsed?
            ==> r == parse(store[key]).value
    ensures !(hasWindow && key in store && store[key] != "" && parse(store[key]).Parsed?)
            ==> r == fallback
  {
    var raw := if hasWindow && key in store then Some(store[key]) else None;
    if raw.Some? && raw.value != "" then
      match parse(raw.value)
      case Parsed(list) => list
      case SyntaxError => fallback
    else fallback
  }

  /** A list initialiser run against the storage: read the entry, parse it, fall back on any failure. */
  method ReadList<T>(storage: LocalStorage, hasWindow: bool, key: string,
                     parse: string -> ParseResult<seq<T>>, fallback: seq<T>) returns (list: seq<T>)
    ensures list == StoredOr(hasWindow, storage.items, key, parse, fallback)
  {
    var raw := if hasWindow then storage.GetItem(key) else None;
    list := fallback;
    if raw.Some? && raw.value != "" {
      var parsed := parse(raw.value);
      if parsed.Parsed? {
        list := parsed.value;
      }
    }
  }

  /** The store's state together with the storage it persists to. */
  datatype DataState = DataState(studies: seq<Study>, reports: seq<Report>, cases: seq<Case>,
                                 store: map<string, string>)

  /** The store as first rendered: stored or seed studies, stored or defaulted seed reports, seed cases. */
  function InitialData(store: map<string, string>, hasWindow: bool,
                       parseStudies: string -> ParseResult<seq<Study>>,
                       parseReports: string -> ParseResult<seq<Report>>,
                       nanoid: nat -> string, now: string): (d: DataState)
    ensures d.studies == StoredOr(hasWindow, store, StudiesKey, parseStudies, SeedStudies(nanoid))
    ensures d.reports == StoredOr(hasWindow, store, ReportsKey, parseReports,
                                  AllWithDefaults(SeedReports(nanoid), now))
    ensures d.cases == SeedCases(nanoid)
    ensures d.store == store
  {
    DataState(StoredOr(hasWindow, store, StudiesKey, parseStudies, SeedStudies(nanoid)),
              StoredOr(hasWindow, store, ReportsKey, parseReports, AllWithDefaults(SeedReports(nanoid), now)),
              SeedCases(nanoid),
              store)
  }

  /** The draft report filed with a new study. */
  function DraftReport(s: StudyInfo, id: string, now: string): (r: Report)
    ensures r.id == id
    ensures s.patientName != "" ==> r.title == s.patientName + " - Draft"
    ensures s.patientName == "" ==> r.title == "Patient - Draft"
    ensures r.summary == "Auto-drafted from " + s.fileName
    ensures r.imageDataUrl.Some? && r.imageDataUrl.value != ""
    ensures s.imageDataUrl.Some? && s.imageDataUrl.value != "" ==> r.imageDataUrl == s.imageDataUrl
    ensures s.imageDataUrl.None? || s.imageDataUrl.value == "" ==> r.imageDataUrl == Some(Placeholder)
    ensures r.patientName == Some(s.patientName)
    ensures r.findings == Some(DraftFindings) && r.impression == Some(DraftImpression)
    ensures r.createdAt == Some(now)
  {
    Report(id,
           OrElse(Some(s.patientName), "Patient") + " - Draft",
           "Auto-drafted from " + s.fileName,
           Some(OrElse(s.imageDataUrl, Placeholder)),
           Some(s.patientName),
           Some(DraftFindings),
           Some(DraftImpression),
           Some(now))
  }

  /**
   * `addStudy`: the new study leads the studies and its draft report leads the
   * reports; every earlier entry follows unchanged and in order; cases and
   * storage are untouched.
   */
  function AfterAddStudy(d: DataState, s: StudyInfo, studyId: string, reportId: string, now: string): (r: DataState)
    ensures |r.studies| == |d.studies| + 1 && r.studies[0] == Study(studyId, s)
    ensures forall i :: 0 <= i < |d.studies| ==> r.studies[i + 1] == d.studies[i]
    ensures |r.reports| == |d.reports| + 1 && r.reports[0] == DraftReport(s, reportId, now)
    ensures forall i :: 0 <= i < |d.reports| ==> r.reports[i + 1] == d.reports[i]
    ensures r.cases == d.cases && r.store == d.store
  {
    DataState([Study(studyId, s)] + d.studies, [DraftReport(s, reportId, now)] + d.reports, d.cases, d.store)
  }

  /**
   * The effect that writes the studies back. `writeThrows` stands for any
   * exception from the block (quota, security, serialisation): it is
   * swallowed and nothing is stored.
   */
  function AfterPersistStudies(d: DataState, stringify: seq<Study> -> string, writeThrows: bool): (r: DataState)
    ensures r.studies == d.studies && r.reports == d.reports && r.cases == d.cases
    ensures writeThrows ==> r.store == d.store
    ensures !writeThrows ==> r.store == d.store[StudiesKey := stringify(d.studies)]
  {
    if writeThrows then d else d.(store := d.store[StudiesKey := stringify(d.studies)])
  }

  /** The effect that writes the reports back; `writeThrows` as for the studies. */
  function AfterPersistReports(d: DataState, stringify: seq<Report> -> string, writeThrows: bool): (r: DataState)
    ensures r.studies == d.studies && r.reports == d.reports && r.cases == d.cases
    ensures writeThrows ==> r.store == d.store
    ensures !writeThrows ==> r.store == d.store[ReportsKey := stringify(d.reports)]
  {
    if writeThrows then d else d.(store := d.store[ReportsKey := stringify(d.reports)])
  }

  /**
   * Persisting survives a reload: a store initialised in a window from what
   * the two effects wrote holds the same studies and reports, provided
   * parsing inverts serialising and the serialised text is not empty.
   */
  lemma PersistSurvivesReload(d: DataState,
                              stringifyStudies: seq<Study> -> string, parseStudies: string -> ParseResult<seq<Study>>,
                              stringifyReports: seq<Report> -> string, parseReports: string -> ParseResult<seq<Report>>,
                              nanoid: nat -> string, now: string)
    requires parseStudies(stringifyStudies(d.studies)) == Parsed(d.studies) && stringifyStudies(d.studies) != ""
    requires parseReports(stringifyReports(d.reports)) == Parsed(d.reports) && stringifyReports(d.reports) != ""
    ensures var saved := AfterPersistReports(AfterPersistStudies(d, stringifyStudies, false), stringifyReports, false);
            var reloaded := InitialData(saved.store, true, parseStudies, parseReports, nanoid, now);
            reloaded.studies == d.studies && reloaded.reports == d.reports
  {
  }

  /** `DataProvider`: the context's lists over the shared storage. `cases` has no setter. */
  class DataProvider {
    var studies: seq<Study>
    var reports: seq<Report>
    const cases: seq<Case>
    const storage: LocalStorage

    ghost function State(): DataState
      reads this, storage
    {
      DataState(studies, reports, cases, storage.items)
    }

    /** The `useState` initialisers. */
    constructor (storage: LocalStorage, hasWindow: bool,
                 parseStudies: string -> ParseResult<seq<Study>>,
                 parseReports: string -> ParseResult<seq<Report>>,
                 nanoid: nat -> string, now: string)
      ensures this.storage == storage
      ensures State() == InitialData(storage.items, hasWindow, parseStudies, parseReports, nanoid, now)
    {
      this.storage := storage;
      var initialStudies := ReadList(storage, hasWindow, StudiesKey, parseStudies, SeedStudies(nanoid));
      var initialReports := ReadList(storage, hasWindow, ReportsKey, parseReports, AllWithDefaults(SeedReports(nanoid), now));
      studies, reports := initialStudies, initialReports;
      cases := SeedCases(nanoid);
    }

    method AddStudy(s: StudyInfo, studyId: string, reportId: string, now: string)
      modifies this
      ensures State() == AfterAddStudy(old(State()), s, studyId, reportId, now)
    {
      studies := [Study(studyId, s)] + studies;
      reports := [DraftReport(s, reportId, now)] + reports;
    }

    method PersistStudies(stringify: seq<Study> -> string, writeThrows: bool)
      modifies storage
      ensures State() == AfterPersistStudies(old(State()), stringify, writeThrows)
    {
      if !writeThrows {
        storage.SetItem(StudiesKey, stringify(studies));
      }
    }

    method PersistReports(stringify: seq<Report> -> string, writeThrows: bool)
      modifies storage
      ensures State() == AfterPersistReports(old(State()), stringify, writeThrows)
    {
      if !writeThrows {
        storage.SetItem(ReportsKey, stringify(reports));
      }
    }
  }
}
