/** The project store: projects are directories under the projects root,
    each holding the saved scenarios' forecast files and an `index.json`
    listing the scenarios. The file system is an in-memory map. */
module Projects {
  import opened Common
  import opened Text
  import opened Regressors
  import opened ScenarioAnalysis

  // ---------------------------------------------------------------------
  // Name sanitisation

  /** The characters a project or scenario name keeps. */
  predicate SafeChar(c: char)
  {
    IsAlnum(c) || c == ' ' || c == '_' || c == '-'
  }

  /** Only the allowed characters are kept, then the result is stripped. */
  function Sanitize(name: string): (r: string)
    ensures |r| <= |name|
  {
    Strip(Filter(name, SafeChar))
  }

  /** A stripped string is a contiguous piece of the original: the slice
      from `a` to `b`. */
  lemma StripIsSlice(s: string) returns (a: nat, b: nat)
    ensures a <= b <= |s| && Strip(s) == s[a..b]
  {
    var t := TrimStart(s);
    TrimStartShape(s);
    TrimEndShape(t);
    a := |s| - |t|;
    b := a + |TrimEnd(t)|;
    assert Strip(s) == t[..|TrimEnd(t)|];
    assert t == s[a..];
  }

  /** A sanitised name holds only letters, digits, space, `_` and `-` (no
      path separator), and does not start or end with white space. */
  lemma SanitizedShape(name: string)
    ensures forall i :: 0 <= i < |Sanitize(name)| ==> SafeChar(Sanitize(name)[i])
    ensures Sanitize(name) == [] || (!IsSpace(Sanitize(name)[0]) && !IsSpace(Sanitize(name)[|Sanitize(name)| - 1]))
  {
    var f := Filter(name, SafeChar);
    var r := Sanitize(name);
    var a, b := StripIsSlice(f);
    assert r == f[a..b];
    forall i | 0 <= i < |r| ensures SafeChar(r[i]) {
      assert r[i] == f[a + i];
    }
    StripShape(f);
  }

  /** Sanitising twice is sanitising once. */
  lemma SanitizeIdempotent(name: string)
    ensures Sanitize(Sanitize(name)) == Sanitize(name)
  {
    var r := Sanitize(name);
    SanitizedShape(name);
    FilterKeepsAll(r, SafeChar);
    StripIdempotent(Filter(name, SafeChar));
  }

  // ---------------------------------------------------------------------
  // Index entries and their order

  /** An entry of `index.json`. */
  datatype Entry = Entry(id: string, name: string, file: string, createdAt: string,
                         totalClicks: real, eventsCount: nat, eventsSummary: seq<string>)

  /** Python's `<` on strings: lexicographic order of the characters. */
  predicate StrLess(a: string, b: string)
  {
    if a == [] then b != []
    else if b == [] then false
    else if a[0] != b[0] then a[0] < b[0]
    else StrLess(a[1..], b[1..])
  }

  lemma {:induction false} StrLessIrreflexive(a: string)
    ensures !StrLess(a, a)
  {
    if a != [] { StrLessIrreflexive(a[1..]); }
  }

  lemma {:induction false} StrLessTransitive(a: string, b: string, c: string)
    requires StrLess(a, b) && StrLess(b, c)
    ensures StrLess(a, c)
  {
    if a != [] && b != [] && c != [] && a[0] == b[0] && b[0] == c[0] {
      StrLessTransitive(a[1..], b[1..], c[1..]);
    }
  }

  lemma {:induction false} StrLessTotal(a: string, b: string)
    requires a != b
    ensures StrLess(a, b) || StrLess(b, a)
  {
    if a != [] && b != [] && a[0] == b[0] {
      assert a == [a[0]] + a[1..] && b == [b[0]] + b[1..];
      StrLessTotal(a[1..], b[1..]);
    }
  }

  /** Newest first: no entry is followed by one created later. */
  predicate NewestFirst(s: seq<Entry>)
  {
    forall i, j :: 0 <= i < j < |s| ==> !StrLess(s[i].createdAt, s[j].createdAt)
  }

  /** Places `x` after every entry at least as new, before the first older one. */
  function InsertByDate(s: seq<Entry>, x: Entry): (r: seq<Entry>)
    ensures multiset(r) == multiset(s) + multiset{x}
    ensures |r| == |s| + 1
  {
    if s == [] then [x]
    else if StrLess(s[0].createdAt, x.createdAt) then [x] + s
    else
      assert s == [s[0]] + s[1..];
      [s[0]] + InsertByDate(s[1..], x)
  }

  lemma ConsNewestFirst(h: Entry, t: seq<Entry>)
    requires NewestFirst(t)
    requires forall k :: 0 <= k < |t| ==> !StrLess(h.createdAt, t[k].createdAt)
    ensures NewestFirst([h] + t)
  {
    var r := [h] + t;
    forall i, j | 0 <= i < j < |r| ensures !StrLess(r[i].createdAt, r[j].createdAt) {
      if i == 0 {
        assert r[j] == t[j - 1];
      } else {
        assert r[i] == t[i - 1] && r[j] == t[j - 1];
      }
    }
  }

  /** Inserting an entry no newer than `b` among entries no newer than `b`
      leaves every entry no newer than `b`. */
  lemma {:induction false} InsertByDateBound(s: seq<Entry>, x: Entry, b: string)
    requires forall k :: 0 <= k < |s| ==> !StrLess(b, s[k].createdAt)
    requires !StrLess(b, x.createdAt)
    ensures forall k :: 0 <= k < |InsertByDate(s, x)| ==> !StrLess(b, InsertByDate(s, x)[k].createdAt)
  {
    if s != [] && !StrLess(s[0].createdAt, x.createdAt) {
      InsertByDateBound(s[1..], x, b);
      assert InsertByDate(s, x) == [s[0]] + InsertByDate(s[1..], x);
    }
  }

  lemma {:induction false} InsertByDateSorted(s: seq<Entry>, x: Entry)
    requires NewestFirst(s)
    ensures NewestFirst(InsertByDate(s, x))
  {
    if s == [] {
    } else if StrLess(s[0].createdAt, x.createdAt) {
      forall k | 0 <= k < |s| ensures !StrLess(x.createdAt, s[k].createdAt) {
        if StrLess(x.createdAt, s[k].createdAt) {
          if k == 0 {
            StrLessIrreflexive(x.createdAt);
            StrLessTransitive(x.createdAt, s[0].createdAt, x.createdAt);
          } else {
            StrLessTransitive(s[0].createdAt, x.createdAt, s[k].createdAt);
          }
        }
      }
      ConsNewestFirst(x, s);
    } else {
      InsertByDateSorted(s[1..], x);
      InsertByDateBound(s[1..], x, s[0].createdAt);
      ConsNewestFirst(s[0], InsertByDate(s[1..], x));
    }
  }

  /** `sorted(data, key=created_at, reverse=True)`, inserting the entries
      one by one in their original order. */
  function SortNewestFirst(s: seq<Entry>): (r: seq<Entry>)
    ensures multiset(r) == multiset(s)
    ensures |r| == |s|
  {
    if s == [] then []
    else
      var n := |s| - 1;
      assert s == s[..n] + [s[n]];
      InsertByDate(SortNewestFirst(s[..n]), s[n])
  }

  /** The loaded list is ordered newest first. */
  lemma {:induction false} SortNewestFirstSorted(s: seq<Entry>)
    ensures NewestFirst(SortNewestFirst(s))
  {
    if s != [] {
      SortNewestFirstSorted(s[..|s| - 1]);
      InsertByDateSorted(SortNewestFirst(s[..|s| - 1]), s[|s| - 1]);
    }
  }

  /** The entries whose id is not `id`, in order. */
  function WithoutId(s: seq<Entry>, id: string): (r: seq<Entry>)
    ensures |r| <= |s|
    ensures forall e :: e in r <==> e in s && e.id != id
  {
    if s == [] then []
    else (if s[0].id == id then [] else [s[0]]) + WithoutId(s[1..], id)
  }

  /** The first entry with id `id`, if any (`next(...)`). */
  function FindId(s: seq<Entry>, id: string): (r: Option<Entry>)
    ensures r.None? <==> forall i :: 0 <= i < |s| ==> s[i].id != id
    ensures r.Some? ==> r.value in s && r.value.id == id
  {
    if s == [] then None else if s[0].id == id then Some(s[0]) else FindId(s[1..], id)
  }

  /** Removing an id that is present shortens the list; one that is absent
      leaves it as it is. */
  lemma {:induction false} WithoutIdLength(s: seq<Entry>, id: string)
    ensures (exists i :: 0 <= i < |s| && s[i].id == id) <==> |WithoutId(s, id)| < |s|
    ensures (forall i :: 0 <= i < |s| ==> s[i].id != id) ==> WithoutId(s, id) == s
  {
    if s != [] {
      WithoutIdLength(s[1..], id);
      if s[0].id != id {
        if exists i :: 0 <= i < |s| && s[i].id == id {
          var i :| 0 <= i < |s| && s[i].id == id;
          assert s[1..][i - 1].id == id;
        }
        assert s == [s[0]] + s[1..];
      }
    }
  }

  // ---------------------------------------------------------------------
  // The store

  /** `index.json` as read back: a list of entries, or a file `json.load`
      cannot parse. */
  datatype IndexFile = IndexJson(entries: seq<Entry>) | Corrupt

  /** A project directory: its forecast files by name and its index, if any. */
  datatype ProjectDir = ProjectDir(files: map<string, Frame>, index: Option<IndexFile>)

  /** The entries an index holds; an absent or unreadable index holds none. */
  function IndexEntries(index: Option<IndexFile>): seq<Entry>
  {
    if index.Some? && index.value.IndexJson? then index.value.entries else []
  }

  /** The columns of a forecast that are saved: `ds` and whichever of
      `yhat`, `yhat_lower`, `yhat_upper` it has. */
  function SavedForecast(f: Frame): (r: Frame)
    ensures r.ds == f.ds
    ensures forall c :: c in r.columns <==> c in f.columns && c in {"yhat", "yhat_lower", "yhat_upper"}
    ensures forall c :: c in r.columns ==> r.columns[c] == f.columns[c]
  {
    Frame(f.ds, map c | c in f.columns && c in {"yhat", "yhat_lower", "yhat_upper"} :: f.columns[c])
  }

  /** The scenario's safe name, with "scenario" for a name that sanitises
      to nothing. */
  function SafeScenarioName(scenarioName: string): (r: string)
    ensures r != []
    ensures Sanitize(scenarioName) != [] ==> r == Sanitize(scenarioName)
  {
    var safe := Sanitize(scenarioName);
    if safe == [] then "scenario" else safe
  }

  /** `total_clicks`: the metrics' `forecast_total` when given, else the
      `yhat` of the dates after `now`. */
  function TotalClicks(forecast: Frame, metrics: map<string, real>, now: int): real
    requires "forecast_total" in metrics || HasYhat(forecast)
  {
    if "forecast_total" in metrics then metrics["forecast_total"]
    else FutureSum(forecast.ds, forecast.columns["yhat"], now)
  }

  /** The index entry of a new scenario saved at timestamp `ts`. */
  function NewEntry(scenarioName: string, forecast: Frame, events: seq<Event>, metrics: map<string, real>,
                    ts: string, now: int): (e: Entry)
    requires "forecast_total" in metrics || HasYhat(forecast)
    ensures e.id == ts + "_" + SafeScenarioName(scenarioName)
    ensures e.file == e.id + ".csv" && e.createdAt == ts && e.name == scenarioName
    ensures e.eventsCount == |events| && e.eventsSummary == EventNames(events)
    ensures "forecast_total" in metrics ==> e.totalClicks == metrics["forecast_total"]
  {
    var fileId := ts + "_" + SafeScenarioName(scenarioName);
    Entry(fileId, scenarioName, fileId + ".csv", ts, TotalClicks(forecast, metrics, now), |events|,
          EventNames(events))
  }

  /** `load_scenarios`: the index of a project, newest first; nothing when
      the project or its index is missing or the index is unreadable. */
  function LoadScenarios(projects: map<string, ProjectDir>, project: string): (r: seq<Entry>)
    ensures NewestFirst(r)
    ensures project in projects ==> multiset(r) == multiset(IndexEntries(projects[project].index))
    ensures project !in projects ==> r == []
  {
    SortNewestFirstSorted(if project in projects then IndexEntries(projects[project].index) else []);
    if project in projects then SortNewestFirst(IndexEntries(projects[project].index)) else []
  }

  /** The projects root and everything under it. */
  class ProjectStore {
    var projects: map<string, ProjectDir>

    constructor ()
      ensures projects == map[]
    {
      projects := map[];
    }

    /** `create_new_project`. */
    method CreateNewProject(name: string) returns (ok: bool, message: string)
      modifies this
      ensures var safe := Sanitize(name);
        && (safe == [] ==> !ok && message == "Nome non valido" && projects == old(projects))
        && (safe != [] && safe in old(projects) ==>
              !ok && message == "Progetto esistente" && projects == old(projects))
        && (safe != [] && safe !in old(projects) ==>
              ok && message == safe && projects == old(projects)[safe := ProjectDir(map[], None)])
    {
      var safeName := Sanitize(name);
      if safeName == [] {
        return false, "Nome non valido";
      }
      if safeName in projects {
        return false, "Progetto esistente";
      }
      projects := projects[safeName := ProjectDir(map[], None)];
      return true, safeName;
    }

    /** `save_scenario`: writes the forecast file and appends the new entry
      to the index, read back first (an unreadable index counts as empty).
      `ts` is the formatted current time and `now` the current day. */
    method SaveScenario(project: string, scenarioName: string, forecast: Frame, events: seq<Event>,
                        metrics: map<string, real>, ts: string, now: int)
      returns (ok: bool, message: string)
      requires "forecast_total" in metrics || HasYhat(forecast)
      modifies this
      ensures project !in old(projects) ==>
        !ok && message == "Progetto non trovato" && projects == old(projects)
      ensures project in old(projects) ==>
        var e := NewEntry(scenarioName, forecast, events, metrics, ts, now);
        var dir := old(projects)[project];
        && ok && message == "Scenario salvato correttamente"
        && projects == old(projects)[project := ProjectDir(dir.files[e.file := SavedForecast(forecast)],
                                                           Some(IndexJson(IndexEntries(dir.index) + [e])))]
    {
      if project !in projects {
        return false, "Progetto non trovato";
      }
      var safeScenName := Sanitize(scenarioName);
      if safeScenName == [] {
        safeScenName := "scenario";
      }
      var fileId := ts + "_" + safeScenName;
      var csvFilename := fileId + ".csv";
      var dir := projects[project];
      var files := dir.files[csvFilename := SavedForecast(forecast)];
      var scenarios: seq<Entry> := [];
      if dir.index.Some? {
        if dir.index.value.IndexJson? {
          scenarios := dir.index.value.entries;
        }
      }
      var totalClicks: real;
      if "forecast_total" in metrics {
        totalClicks := metrics["forecast_total"];
      } else {
        totalClicks := FutureSum(forecast.ds, forecast.columns["yhat"], now);
      }
      var newEntry := Entry(fileId, scenarioName, csvFilename, ts, totalClicks, |events|, EventNames(events));
      scenarios := scenarios + [newEntry];
      projects := projects[project := ProjectDir(files, Some(IndexJson(scenarios)))];
      return true, "Scenario salvato correttamente";
    }

    /** `delete_scenario`: when the id is in the loaded (newest first) list,
      removes its file and rewrites the index as that list without the id. */
    method DeleteScenario(project: string, scenarioId: string) returns (deleted: bool)
      modifies this
      ensures deleted <==> FindId(LoadScenarios(old(projects), project), scenarioId).Some?
      ensures !deleted ==> projects == old(projects)
      ensures deleted ==> project in old(projects)
      ensures deleted ==>
        var loaded := LoadScenarios(old(projects), project);
        projects == old(projects)[project := ProjectDir(
          old(projects)[project].files - {FindId(loaded, scenarioId).value.file},
          Some(IndexJson(WithoutId(loaded, scenarioId))))]
    {
      var scenarios := LoadScenarios(projects, project);
      var target := FindId(scenarios, scenarioId);
      if target.Some? {
        var dir := projects[project];
        var files := dir.files;
        if target.value.file in files {
          files := files - {target.value.file};
        } else {
          assert files == dir.files - {target.value.file};
        }
        var newList := WithoutId(scenarios, scenarioId);
        projects := projects[project := ProjectDir(files, Some(IndexJson(newList)))];
        return true;
      }
      return false;
    }
  }

  /** After a save, the project's index ends with the new entry, after the
      entries it held before. */
  lemma SaveAppendsLast(dir: ProjectDir, e: Entry)
    ensures var after := IndexEntries(Some(IndexJson(IndexEntries(dir.index) + [e])));
      |after| == |IndexEntries(dir.index)| + 1 && after[|after| - 1] == e
      && after[..|after| - 1] == IndexEntries(dir.index)
  {
  }

  /** Deleting an id leaves no entry with it, and keeps every other entry. */
  lemma DeleteRemovesExactly(projects: map<string, ProjectDir>, project: string, id: string)
    ensures var loaded := LoadScenarios(projects, project);
      && (forall e :: e in WithoutId(loaded, id) ==> e.id != id)
      && (forall e :: e in loaded && e.id != id ==> e in WithoutId(loaded, id))
  {
  }
}
