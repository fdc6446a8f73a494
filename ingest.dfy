/** Ingestion validators: the Search Console export check (required
    columns, date parsing, merging of duplicate dates, ordering, the length
    warning) and the merge of the regressor workbook's events with their
    templates. */
module Ingest {
  import opened Common
  import opened Text
  import opened Grouping

  // ---------------------------------------------------------------------
  // validate_gsc_data

  /** A cell of the `date` column: a day number once `pd.to_datetime`
      accepts it, or the text of the error it raises. */
  datatype DateCell = Day(day: int) | Unparsable(reason: string)

  /** An uploaded export: its column names and its (date, clicks) rows. */
  datatype RawFrame = RawFrame(columns: set<string>, rows: seq<(DateCell, real)>)

  datatype Validation =
    | VError(message: string)
    | VWarning(message: string, data: Pairs)
    | VSuccess(data: Pairs)

  /** The required columns absent from `columns`, in the order `date`, `clicks`. */
  function MissingColumns(columns: set<string>): (r: seq<string>)
    ensures forall c :: c in r <==> c in ["date", "clicks"] && c !in columns
  {
    (if "date" in columns then [] else ["date"]) + (if "clicks" in columns then [] else ["clicks"])
  }

  /** Index of the first date `pd.to_datetime` rejects, if any. */
  function FirstUnparsable(rows: seq<(DateCell, real)>): (r: Option<nat>)
    ensures r.None? <==> forall i :: 0 <= i < |rows| ==> rows[i].0.Day?
    ensures r.Some? ==> (r.value < |rows| && rows[r.value].0.Unparsable?
      && forall i :: 0 <= i < r.value ==> rows[i].0.Day?)
  {
    if rows == [] then None
    else if rows[0].0.Unparsable? then Some(0)
    else
      var t := FirstUnparsable(rows[1..]);
      if t.None? then None else Some(t.value + 1)
  }

  /** The rows with their dates converted (all dates parse). */
  function ParsedRows(rows: seq<(DateCell, real)>): (r: Pairs)
    requires forall i :: 0 <= i < |rows| ==> rows[i].0.Day?
    ensures |r| == |rows|
    ensures forall i :: 0 <= i < |rows| ==> r[i] == (rows[i].0.day, rows[i].1)
  {
    seq(|rows|, i requires 0 <= i < |rows| => (rows[i].0.day, rows[i].1))
  }

  /** Whether some date occurs twice (`df['date'].duplicated().any()`). */
  predicate HasDuplicates(p: Pairs)
  {
    !DistinctKeys(p)
  }

  /** The minimum history length below which a warning is returned. */
  const MinHistoryDays: nat := 60

  /** `validate_gsc_data`. Duplicate dates are merged by summing their
      clicks and the rows are put in date order. Without duplicates the
      grouping step is skipped and `sort_values` alone orders the rows;
      since the dates are then distinct, that order is the one `GroupSum`
      produces (see `DistinctRowsOnlyReordered`), so both branches are
      `GroupSum` of the parsed rows. */
  function ValidateGscData(df: RawFrame): (r: Validation)
    ensures MissingColumns(df.columns) != [] ==>
      r == VError("Mancano colonne: " + Join(MissingColumns(df.columns), ", "))
    ensures MissingColumns(df.columns) == [] && FirstUnparsable(df.rows).Some? ==>
      r == VError("Errore conversione date: " + df.rows[FirstUnparsable(df.rows).value].0.reason)
    ensures r.VWarning? || r.VSuccess? ==>
      && MissingColumns(df.columns) == [] && FirstUnparsable(df.rows).None?
      && StrictlySorted(r.data)
      && Keys(r.data) == Keys(ParsedRows(df.rows))
      && (forall k :: Lookup(r.data, k) == SumFor(ParsedRows(df.rows), k))
      && Total(r.data) == Total(ParsedRows(df.rows))
    ensures r.VWarning? <==> !r.VError? && |r.data| < MinHistoryDays
  {
    var missing := MissingColumns(df.columns);
    if missing != [] then VError("Mancano colonne: " + Join(missing, ", "))
    else
      var bad := FirstUnparsable(df.rows);
      if bad.Some? then VError("Errore conversione date: " + df.rows[bad.value].0.reason)
      else
        var p := ParsedRows(df.rows);
        var data := GroupSum(p);
        if |data| < MinHistoryDays then
          VWarning("Dati storici insufficienti (" + NatToString(|data|) + " giorni). Minimo 60 raccomandati.", data)
        else VSuccess(data)
  }

  /** The missing-columns message names exactly the columns that are missing. */
  lemma MissingColumnsMessage(df: RawFrame)
    ensures "date" !in df.columns && "clicks" in df.columns ==>
      ValidateGscData(df) == VError("Mancano colonne: date")
    ensures "date" in df.columns && "clicks" !in df.columns ==>
      ValidateGscData(df) == VError("Mancano colonne: clicks")
    ensures "date" !in df.columns && "clicks" !in df.columns ==>
      ValidateGscData(df) == VError("Mancano colonne: date, clicks")
  {
    var missing := MissingColumns(df.columns);
    if "date" !in df.columns && "clicks" in df.columns {
      assert missing == ["date"];
    } else if "date" in df.columns && "clicks" !in df.columns {
      assert missing == ["clicks"];
    } else if "date" !in df.columns && "clicks" !in df.columns {
      assert missing == ["date", "clicks"];
      assert missing[1..] == ["clicks"];
      assert Join(missing, ", ") == "date" + ", " + "clicks";
    }
  }

  /** When no date repeats, the validated data are the parsed rows
      themselves, only reordered by date. */
  lemma DistinctRowsOnlyReordered(df: RawFrame)
    requires ValidateGscData(df).VWarning? || ValidateGscData(df).VSuccess?
    requires !HasDuplicates(ParsedRows(df.rows))
    ensures multiset(ValidateGscData(df).data) == multiset(ParsedRows(df.rows))
  {
    GroupSumDistinct(ParsedRows(df.rows));
  }

  /** The validated data have one row per date, so fewer rows than input
      rows exactly when some date was duplicated. */
  lemma {:induction false} MergedLength(p: Pairs)
    ensures |GroupSum(p)| <= |p|
    ensures DistinctKeys(p) ==> |GroupSum(p)| == |p|
  {
    if p != [] {
      var q := p[..|p| - 1];
      var k := p[|p| - 1].0;
      MergedLength(q);
      var g := GroupSum(q);
      assert GroupSum(p) == Insert(g, k, p[|p| - 1].1);
      InsertLength(g, k, p[|p| - 1].1);
      if DistinctKeys(p) {
        DistinctKeysSnoc(p);
      }
    }
  }

  /** Without its last row a list of distinct keys still has distinct keys,
      none of them the last row's. */
  lemma DistinctKeysSnoc(p: Pairs)
    requires p != [] && DistinctKeys(p)
    ensures DistinctKeys(p[..|p| - 1]) && p[|p| - 1].0 !in Keys(p[..|p| - 1])
  {
    var q := p[..|p| - 1];
    forall i, j | 0 <= i < j < |q| ensures q[i].0 != q[j].0 {
      assert q[i] == p[i] && q[j] == p[j];
    }
    forall i | 0 <= i < |q| ensures q[i].0 != p[|p| - 1].0 {
      assert q[i] == p[i];
    }
  }

  /** Insertion adds a row exactly when the key is new. */
  lemma {:induction false} InsertLength(s: Pairs, k: int, v: real)
    requires StrictlySorted(s)
    ensures |Insert(s, k, v)| == if k in Keys(s) then |s| else |s| + 1
  {
    if s == [] || k < s[0].0 {
      BelowAll(s, k);
    } else if s[0].0 == k {
      assert s[0].0 in Keys(s);
    } else {
      KeysCons(s);
      SortedHead(s);
      InsertLength(s[1..], k, v);
    }
  }

  // ---------------------------------------------------------------------
  // parse_regressors

  /** A row of the `Template` sheet. */
  datatype TemplateRow = TemplateRow(
    templateName: string, eventType: string, defaultDuration: real, defaultImpact: real, regressorType: string)

  /** An optional custom value of an event row: absent or NaN, the empty
      string, or a number. */
  datatype Custom = Missing | Blank | Value(x: real)

  /** A row of the `Eventi` sheet. */
  datatype EventRow = EventRow(name: string, date: int, templateType: string,
                               customDuration: Custom, customImpact: Custom)

  datatype Sheet<R> = Sheet(columns: set<string>, rows: seq<R>)

  /** What `pd.read_excel(..., sheet_name=None)` gives: a failure, or the
      names of the sheets and the two sheets the tool uses (their contents
      only matter when their names are present). */
  datatype Workbook =
    | Unreadable(reason: string)
    | Workbook(sheetNames: set<string>, templates: Sheet<TemplateRow>, events: Sheet<EventRow>)

  datatype ParseResult = ParseError(message: string) | Parsed(data: seq<Event>)

  const TemplateColumns: seq<string> :=
    ["template_name", "event_type", "default_duration_days", "default_impact", "regressor_type"]
  const EventColumns: seq<string> := ["name", "date", "template_type"]

  /** The members of `required` absent from `columns`, in order. */
  function MissingOf(required: seq<string>, columns: set<string>): (r: seq<string>)
    ensures forall c :: c in r <==> c in required && c !in columns
  {
    if required == [] then []
    else (if required[0] in columns then [] else [required[0]]) + MissingOf(required[1..], columns)
  }

  /** Position of the first template row named `name`, if any. */
  function TemplateIndex(tpls: seq<TemplateRow>, name: string): (r: Option<nat>)
    ensures r.None? <==> forall i :: 0 <= i < |tpls| ==> tpls[i].templateName != name
    ensures r.Some? ==> (r.value < |tpls| && tpls[r.value].templateName == name
      && forall j :: 0 <= j < r.value ==> tpls[j].templateName != name)
  {
    if tpls == [] then None
    else if tpls[0].templateName == name then Some(0)
    else
      var t := TemplateIndex(tpls[1..], name);
      if t.None? then None else Some(t.value + 1)
  }

  /** The first template row named `name` (`tpl_entry.iloc[0]`), if any. */
  function FindTemplate(tpls: seq<TemplateRow>, name: string): (r: Option<TemplateRow>)
    ensures r.None? <==> TemplateIndex(tpls, name).None?
    ensures r.Some? ==> r.value == tpls[TemplateIndex(tpls, name).value]
  {
    var k := TemplateIndex(tpls, name);
    if k.None? then None else Some(tpls[k.value])
  }

  /** A custom value, or the template's default when it is NaN or empty. */
  function CustomOr(c: Custom, default: real): real
  {
    if c.Value? then c.x else default
  }

  /** The event of a row merged with its template: duration and impact from
      the row unless missing, shape and category from the template. */
  function MergeEvent(row: EventRow, tpl: TemplateRow): (e: Event)
    ensures e.name == row.name && e.date == row.date
    ensures e.kind == tpl.regressorType && e.eventType == Some(tpl.eventType) && e.notes.None?
    ensures e.duration == Trunc(if row.customDuration.Value? then row.customDuration.x else tpl.defaultDuration)
    ensures e.impact == (if row.customImpact.Value? then row.customImpact.x else tpl.defaultImpact)
  {
    Event(row.name, row.date, tpl.regressorType, Trunc(CustomOr(row.customDuration, tpl.defaultDuration)),
          CustomOr(row.customImpact, tpl.defaultImpact), Some(tpl.eventType), None)
  }

  /** Index of the first event row whose template is not in the sheet. */
  function FirstOrphan(tpls: seq<TemplateRow>, rows: seq<EventRow>): (r: Option<nat>)
    ensures r.None? <==> forall i :: 0 <= i < |rows| ==> FindTemplate(tpls, rows[i].templateType).Some?
    ensures r.Some? ==> (r.value < |rows| && FindTemplate(tpls, rows[r.value].templateType).None?
      && forall i :: 0 <= i < r.value ==> FindTemplate(tpls, rows[i].templateType).Some?)
  {
    if rows == [] then None
    else if FindTemplate(tpls, rows[0].templateType).None? then Some(0)
    else
      var t := FirstOrphan(tpls, rows[1..]);
      if t.None? then None else Some(t.value + 1)
  }

  /** The merged events of rows that all have a template. */
  function MergedEvents(tpls: seq<TemplateRow>, rows: seq<EventRow>): (r: seq<Event>)
    requires forall i :: 0 <= i < |rows| ==> FindTemplate(tpls, rows[i].templateType).Some?
    ensures |r| == |rows|
  {
    seq(|rows|, i requires 0 <= i < |rows| => MergeEvent(rows[i], FindTemplate(tpls, rows[i].templateType).value))
  }

  function OrphanMessage(row: EventRow): string
  {
    "Template '" + row.templateType + "' non trovato per evento '" + row.name + "'"
  }

  /** What `parse_regressors` returns for a workbook. */
  function Regressors(book: Workbook): ParseResult
  {
    if book.Unreadable? then ParseError("Impossibile leggere Excel: " + book.reason)
    else if "Eventi" !in book.sheetNames || "Template" !in book.sheetNames then
      ParseError("Fogli mancanti. Richiesti: 'Eventi', 'Template'")
    else if MissingOf(TemplateColumns, book.templates.columns) != [] then
      ParseError("Foglio Template: mancano colonne " + ListRepr(MissingOf(TemplateColumns, book.templates.columns)))
    else if MissingOf(EventColumns, book.events.columns) != [] then
      ParseError("Foglio Eventi: mancano colonne " + ListRepr(MissingOf(EventColumns, book.events.columns)))
    else
      var bad := FirstOrphan(book.templates.rows, book.events.rows);
      if bad.Some? then ParseError(OrphanMessage(book.events.rows[bad.value]))
      else Parsed(MergedEvents(book.templates.rows, book.events.rows))
  }

  /** `parse_regressors`: the sheet checks, then one merged event per event
      row, stopping at the first row whose template is missing. */
  method ParseRegressors(book: Workbook) returns (r: ParseResult)
    ensures r == Regressors(book)
  {
    if book.Unreadable? {
      return ParseError("Impossibile leggere Excel: " + book.reason);
    }
    if "Eventi" !in book.sheetNames || "Template" !in book.sheetNames {
      return ParseError("Fogli mancanti. Richiesti: 'Eventi', 'Template'");
    }
    var templates := book.templates;
    var events := book.events;
    var missingTpl := MissingOf(TemplateColumns, templates.columns);
    if missingTpl != [] {
      return ParseError("Foglio Template: mancano colonne " + ListRepr(missingTpl));
    }
    var missingEvt := MissingOf(EventColumns, events.columns);
    if missingEvt != [] {
      return ParseError("Foglio Eventi: mancano colonne " + ListRepr(missingEvt));
    }
    var processed: seq<Event> := [];
    var i := 0;
    while i < |events.rows|
      invariant 0 <= i <= |events.rows|
      invariant forall j :: 0 <= j < i ==> FindTemplate(templates.rows, events.rows[j].templateType).Some?
      invariant processed == MergedEvents(templates.rows, events.rows[..i])
    {
      var event := events.rows[i];
      var tplEntry := FindTemplate(templates.rows, event.templateType);
      if tplEntry.None? {
        assert FirstOrphan(templates.rows, events.rows) == Some(i) by {
          FirstOrphanAt(templates.rows, events.rows, i);
        }
        return ParseError(OrphanMessage(event));
      }
      var tpl := tplEntry.value;
      var duration := tpl.defaultDuration;
      if event.customDuration.Value? {
        duration := event.customDuration.x;
      }
      var impact := tpl.defaultImpact;
      if event.customImpact.Value? {
        impact := event.customImpact.x;
      }
      var merged := Event(event.name, event.date, tpl.regressorType, Trunc(duration), impact,
                          Some(tpl.eventType), None);
      assert merged == MergeEvent(event, tpl);
      MergedEventsSnoc(templates.rows, events.rows, i);
      processed := processed + [merged];
      i := i + 1;
    }
    assert events.rows[..i] == events.rows;
    return Parsed(processed);
  }

  lemma MergedEventsSnoc(tpls: seq<TemplateRow>, rows: seq<EventRow>, i: nat)
    requires i < |rows|
    requires forall j :: 0 <= j <= i ==> FindTemplate(tpls, rows[j].templateType).Some?
    ensures MergedEvents(tpls, rows[..i + 1])
         == MergedEvents(tpls, rows[..i]) + [MergeEvent(rows[i], FindTemplate(tpls, rows[i].templateType).value)]
  {
    var a := MergedEvents(tpls, rows[..i + 1]);
    var b := MergedEvents(tpls, rows[..i]);
    forall k | 0 <= k < i ensures a[k] == b[k] {
      assert rows[..i + 1][k] == rows[..i][k];
    }
    assert rows[..i + 1][i] == rows[i];
  }

  /** A row that has no template, after rows that all have one, is the
      first orphan. */
  lemma FirstOrphanAt(tpls: seq<TemplateRow>, rows: seq<EventRow>, i: nat)
    requires i < |rows| && FindTemplate(tpls, rows[i].templateType).None?
    requires forall j :: 0 <= j < i ==> FindTemplate(tpls, rows[j].templateType).Some?
    ensures FirstOrphan(tpls, rows) == Some(i)
  {
    var r := FirstOrphan(tpls, rows);
    assert r.Some?;
  }

  /** A missing sheet or a missing required column is reported before any
      event row is looked at: the result does not depend on the rows. */
  lemma StructureErrorsIgnoreRows(book: Workbook, rows: seq<EventRow>)
    requires book.Workbook?
    requires "Eventi" !in book.sheetNames || "Template" !in book.sheetNames
      || MissingOf(TemplateColumns, book.templates.columns) != []
      || MissingOf(EventColumns, book.events.columns) != []
    ensures Regressors(book).ParseError?
    ensures Regressors(book) == Regressors(book.(events := book.events.(rows := rows)))
  {
  }

  /** The first event row without a template aborts the parse, naming that
      row's template and event. */
  lemma OrphanAborts(book: Workbook, i: nat)
    requires book.Workbook? && {"Eventi", "Template"} <= book.sheetNames
    requires MissingOf(TemplateColumns, book.templates.columns) == []
    requires MissingOf(EventColumns, book.events.columns) == []
    requires i < |book.events.rows|
    requires FindTemplate(book.templates.rows, book.events.rows[i].templateType).None?
    requires forall j :: 0 <= j < i ==> FindTemplate(book.templates.rows, book.events.rows[j].templateType).Some?
    ensures Regressors(book) == ParseError(OrphanMessage(book.events.rows[i]))
  {
    FirstOrphanAt(book.templates.rows, book.events.rows, i);
  }

  /** A successful parse has one event per row, in row order, each merged
      with the first template of its type. */
  lemma ParsedEventsInRowOrder(book: Workbook)
    requires Regressors(book).Parsed?
    ensures book.Workbook?
    ensures |Regressors(book).data| == |book.events.rows|
    ensures forall i :: 0 <= i < |book.events.rows| ==>
      exists k :: (0 <= k < |book.templates.rows|
        && book.templates.rows[k].templateName == book.events.rows[i].templateType
        && (forall j :: 0 <= j < k ==> book.templates.rows[j].templateName != book.events.rows[i].templateType)
        && Regressors(book).data[i] == MergeEvent(book.events.rows[i], book.templates.rows[k]))
  {
    var tpls, rows := book.templates.rows, book.events.rows;
    var data := MergedEvents(tpls, rows);
    assert Regressors(book) == Parsed(data);
    forall i | 0 <= i < |rows|
      ensures exists k :: (0 <= k < |tpls| && tpls[k].templateName == rows[i].templateType
        && (forall j :: 0 <= j < k ==> tpls[j].templateName != rows[i].templateType)
        && Regressors(book).data[i] == MergeEvent(rows[i], tpls[k]))
    {
      var k := TemplateIndex(tpls, rows[i].templateType).value;
      assert data[i] == MergeEvent(rows[i], tpls[k]);
    }
  }
}
