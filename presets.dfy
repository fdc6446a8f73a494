/** The scenario preset generator: from the fields of a commercial
    proposal form it emits the events of a prospecting scenario (setup,
    monthly content, link, tech, on-page and local packages, then one-off
    extras), each built from a preset template scaled by a multiplier. */
module Presets {
  import opened Common
  import opened Text

  /** The integer nearest to `y`, ties to the even one (Python's `round`). */
  function RoundHalfEven(y: real): (n: int)
    ensures -0.5 <= n as real - y <= 0.5
    ensures (n as real - y == 0.5 || n as real - y == -0.5) ==> n % 2 == 0
  {
    var f := y.Floor;
    var frac := y - f as real;
    if frac < 0.5 then f
    else if frac > 0.5 then f + 1
    else if f % 2 == 0 then f else f + 1
  }

  /** Python's `round(x, 3)`: the nearest multiple of 0.001, ties to the
      even multiple. */
  function Round3(x: real): (r: real)
    ensures -0.0005 <= r - x <= 0.0005
    ensures (r * 1000.0).Floor as real == r * 1000.0
    ensures (r - x == 0.0005 || r - x == -0.0005) ==> (r * 1000.0).Floor % 2 == 0
  {
    var n := RoundHalfEven(x * 1000.0);
    assert n as real / 1000.0 * 1000.0 == n as real;
    assert n as real / 1000.0 - x == (n as real - x * 1000.0) / 1000.0;
    n as real / 1000.0
  }

  /** A value that already has at most three decimals is left unchanged. */
  lemma Round3Exact(n: int)
    ensures Round3(n as real / 1000.0) == n as real / 1000.0
  {
    var x := n as real / 1000.0;
    assert x * 1000.0 == n as real;
    assert (x * 1000.0).Floor == n;
  }

  /** A preset template: curve shape, duration in days, impact and event type. */
  datatype Template = Template(kind: string, duration: int, impact: real, eventType: string)

  const BaseImpactArticle: real := 0.015
  const BaseImpactLink: real := 0.03
  const BaseImpactTech: real := 0.05
  const BaseImpactUpdate: real := 0.08

  /** The keys of the preset table. */
  datatype TemplateKey =
    ContentPublication | ContentUpdate | TechnicalFix | LinkBuilding | SiteMigration | PpcCampaign

  /** The entries of `PRESET_TEMPLATES`. */
  function Preset(k: TemplateKey): Template
  {
    match k
    case ContentPublication => Template("ramp", 60, BaseImpactArticle, "content")
    case ContentUpdate => Template("step", 1, BaseImpactUpdate, "content")
    case TechnicalFix => Template("step", 1, BaseImpactTech, "technical")
    case LinkBuilding => Template("ramp", 90, BaseImpactLink, "offpage")
    case SiteMigration => Template("step", 1, -0.10, "technical")
    case PpcCampaign => Template("window", 30, 0.15, "marketing")
  }

  /** The dictionary key of each entry. */
  function KeyName(k: TemplateKey): string
  {
    match k
    case ContentPublication => "content_publication"
    case ContentUpdate => "content_update"
    case TechnicalFix => "technical_fix"
    case LinkBuilding => "link_building"
    case SiteMigration => "site_migration"
    case PpcCampaign => "ppc_campaign"
  }

  /** The dictionary lookup by key: the entry a string names, if any. */
  function KeyOf(key: string): (r: Option<TemplateKey>)
  {
    if key == "content_publication" then Some(ContentPublication)
    else if key == "content_update" then Some(ContentUpdate)
    else if key == "technical_fix" then Some(TechnicalFix)
    else if key == "link_building" then Some(LinkBuilding)
    else if key == "site_migration" then Some(SiteMigration)
    else if key == "ppc_campaign" then Some(PpcCampaign)
    else None
  }

  /** A string names an entry exactly when it is that entry's key. */
  lemma KeyOfName(key: string, k: TemplateKey)
    ensures KeyOf(key) == Some(k) <==> key == KeyName(k)
  {
  }

  /** A copy of entry `k` with its impact scaled by `multiplier` and
      rounded to three decimals. */
  function TemplateData(k: TemplateKey, multiplier: real): Template
  {
    Preset(k).(impact := Round3(Preset(k).impact * multiplier))
  }

  /** `get_template_data`: the scaled copy of the entry named `key`, of
      `content_publication` when there is none. The copy keeps the curve,
      duration and event type of its entry, and its impact is the scaled
      impact rounded to three decimals, so within half a thousandth of it.
      The table is a constant, so no call can change it. */
  function GetTemplateData(key: string, multiplier: real): (t: Template)
    ensures var base := Preset(KeyOf(key).GetOr(ContentPublication));
      && t.kind == base.kind && t.duration == base.duration && t.eventType == base.eventType
      && t.impact == Round3(base.impact * multiplier)
      && -0.0005 <= t.impact - base.impact * multiplier <= 0.0005
  {
    TemplateData(KeyOf(key).GetOr(ContentPublication), multiplier)
  }

  /** Calling `get_template_data` with an entry's own key gives that
      entry's scaled copy. */
  lemma GetTemplateDataByName(k: TemplateKey, multiplier: real)
    ensures GetTemplateData(KeyName(k), multiplier) == TemplateData(k, multiplier)
  {
    KeyOfName(KeyName(k), k);
  }

  /** With the default multiplier a template comes back exactly as listed. */
  lemma TemplateAtUnitMultiplier(k: TemplateKey)
    ensures TemplateData(k, 1.0) == Preset(k)
  {
    match k
    case ContentPublication => Round3Exact(15);
    case ContentUpdate => Round3Exact(80);
    case TechnicalFix => Round3Exact(50);
    case LinkBuilding => Round3Exact(30);
    case SiteMigration => Round3Exact(-100);
    case PpcCampaign => Round3Exact(150);
  }

  /** An unknown template key behaves like `content_publication`. */
  lemma UnknownKeyFallsBack(key: string, multiplier: real)
    requires KeyOf(key).None?
    ensures GetTemplateData(key, multiplier) == TemplateData(ContentPublication, multiplier)
  {
    assert KeyOf("content_publication") == Some(ContentPublication);
  }

  /** An event built from a template, with the given name, date, event type
      and notes. */
  function FromTemplate(name: string, date: int, t: Template, eventType: string, notes: Option<string>): Event
  {
    Event(name, date, t.kind, t.duration, t.impact, Some(eventType), notes)
  }

  // ---------------------------------------------------------------------
  // Setup

  /** The events of setup mode `mode`, all on the contract start date:
      one for "lite", two for "full", three for "strategy", none otherwise. */
  function SetupEvents(mode: string, start: int): (r: seq<Event>)
    ensures |r| == (if mode == "lite" then 1 else if mode == "full" then 2
                    else if mode == "strategy" then 3 else 0)
    ensures forall i :: 0 <= i < |r| ==> r[i].date == start
  {
    if mode == "lite" then
      [FromTemplate("Setup SEO Lite (Tech Fix)", start, TemplateData(TechnicalFix, 1.0), "technical",
                    Some("Risoluzione errori tecnici di base (404, redirect, robots.txt)"))]
    else if mode == "full" then
      [FromTemplate("Setup SEO Full (Tech)", start, TemplateData(TechnicalFix, 1.0), "technical",
                    Some("Audit tecnico approfondito e fix strutturali")),
       FromTemplate("Setup SEO Full (Content Audit)", start, TemplateData(ContentUpdate, 1.0), "content",
                    Some("Analisi semantica e potatura contenuti obsoleti"))]
    else if mode == "strategy" then
      [FromTemplate("Setup Strategy (Tech)", start, TemplateData(TechnicalFix, 1.0), "technical", None),
       FromTemplate("Setup Strategy (Audit)", start, TemplateData(ContentUpdate, 1.0), "content", None),
       FromTemplate("Setup Strategy (Initial Plan)", start, TemplateData(ContentPublication, 3.0), "content",
                    Some("Definizione piano editoriale strategico"))]
    else []
  }

  /** The strategy setup's initial plan is worth three articles: a 60-day
      ramp with impact 0.045. */
  lemma StrategyInitialPlan(start: int)
    ensures SetupEvents("strategy", start)[2]
         == Event("Setup Strategy (Initial Plan)", start, "ramp", 60, 0.045, Some("content"),
                  Some("Definizione piano editoriale strategico"))
  {
    Round3Exact(45);
  }

  // ---------------------------------------------------------------------
  // Monthly packages

  /** The five monthly handlers of the generator. */
  datatype Handler = Content | Links | Tech | OnPage | Local

  /** In which months a content package adds an optimisation event. */
  predicate UpdateMonth(mode: string, m: int)
  {
    (mode == "basic" && m % 3 == 0) || mode == "plus" || mode == "authority"
  }

  /** `handle_content`: a publication ramp scaled by the number of articles
      when there are any, then an optimisation step in update months. */
  function ContentMonth(mode: string, m: int, d: int, q: real): (r: seq<Event>)
    ensures |r| == (if q > 0.0 then 1 else 0) + (if UpdateMonth(mode, m) then 1 else 0)
    ensures forall i :: 0 <= i < |r| ==> r[i].date == d && r[i].eventType == Some("content")
    ensures q > 0.0 ==> r[0] == Event("Content Pub (" + IntToString(Trunc(q)) + " art.) M" + IntToString(m),
                                      d, "ramp", 60, Round3(0.015 * q), Some("content"), None)
    ensures UpdateMonth(mode, m) ==>
      r[|r| - 1] == Event("Content Optimization (" + mode + ") M" + IntToString(m), d, "step", 1, 0.08,
                          Some("content"), None)
  {
    Round3Exact(80);
    var pub := if q > 0.0 then
      [FromTemplate("Content Pub (" + IntToString(Trunc(q)) + " art.) M" + IntToString(m), d,
                    TemplateData(ContentPublication, q), "content", None)]
      else [];
    var upd := if UpdateMonth(mode, m) then
      [FromTemplate("Content Optimization (" + mode + ") M" + IntToString(m), d,
                    TemplateData(ContentUpdate, 1.0), "content", None)]
      else [];
    pub + upd
  }

  /** `handle_links`: a 90-day ramp scaled by the number of links, when
      there are any. */
  function LinksMonth(m: int, d: int, q: real): (r: seq<Event>)
    ensures r == if q > 0.0 then [Event("Link Building (" + IntToString(Trunc(q)) + " links) M" + IntToString(m),
                                        d, "ramp", 90, Round3(0.03 * q), Some("offpage"), None)]
                 else []
  {
    if q > 0.0 then
      [FromTemplate("Link Building (" + IntToString(Trunc(q)) + " links) M" + IntToString(m), d,
                    TemplateData(LinkBuilding, q), "offpage", None)]
    else []
  }

  /** `handle_tech`: a quarterly technical fix, only in "care" mode. */
  function TechMonth(mode: string, m: int, d: int): (r: seq<Event>)
    ensures r != [] <==> mode == "care" && m % 3 == 0
    ensures r != [] ==> r == [Event("Tech Care (Quarterly) M" + IntToString(m), d, "step", 1, 0.05,
                                    Some("technical"), None)]
  {
    Round3Exact(50);
    if mode == "care" && m % 3 == 0 then
      [FromTemplate("Tech Care (Quarterly) M" + IntToString(m), d, TemplateData(TechnicalFix, 1.0),
                    "technical", None)]
    else []
  }

  /** `handle_onpage`: a content-update step every month. */
  function OnPageMonth(m: int, d: int): (r: seq<Event>)
    ensures r == [Event("On-Page Opt M" + IntToString(m), d, "step", 1, 0.08, Some("content"), None)]
  {
    Round3Exact(80);
    [FromTemplate("On-Page Opt M" + IntToString(m), d, TemplateData(ContentUpdate, 1.0), "content", None)]
  }

  /** `handle_local`: a content-update step whose impact is set to 0.05 and
      whose event type is "local". */
  function LocalMonth(m: int, d: int): (r: seq<Event>)
    ensures r == [Event("Local SEO M" + IntToString(m), d, "step", 1, 0.05, Some("local"), None)]
  {
    var t := TemplateData(ContentUpdate, 1.0);
    [FromTemplate("Local SEO M" + IntToString(m), d, Template(t.kind, t.duration, 0.05, t.eventType), "local", None)]
  }

  /** What handler `h` adds for month `m` dated `d`. */
  function MonthEvents(h: Handler, mode: string, m: int, d: int, q: real): seq<Event>
  {
    match h
    case Content => ContentMonth(mode, m, d, q)
    case Links => LinksMonth(m, d, q)
    case Tech => TechMonth(mode, m, d)
    case OnPage => OnPageMonth(m, d)
    case Local => LocalMonth(m, d)
  }

  /** `get_date_month`: the contract start plus `m - 1` calendar months;
      `addMonths` stands for `relativedelta` month arithmetic. */
  function DateOfMonth(start: int, m: int, addMonths: (int, int) -> int): int
  {
    addMonths(start, m - 1)
  }

  /** Month 1 is the contract start itself. */
  lemma FirstMonthIsStart(start: int, addMonths: (int, int) -> int)
    requires addMonths(start, 0) == start
    ensures DateOfMonth(start, 1, addMonths) == start
  {
  }

  /** A package mode that `process_monthly_package` acts on: present, not
      empty (falsy) and not "none". */
  predicate ModeActive(mode: Option<string>)
  {
    mode.Some? && mode.value != "" && mode.value != "none"
  }

  /** The months a package covers: from its first month to its last one,
      cut at the contract length, ascending. */
  function PackageMonths(range: (int, int), months: int): (r: seq<int>)
    ensures |r| == (var last := if range.1 < months then range.1 else months;
                    if last < range.0 then 0 else last - range.0 + 1)
    ensures forall i :: 0 <= i < |r| ==> r[i] == range.0 + i
  {
    var last := if range.1 < months then range.1 else months;
    if last < range.0 then [] else seq(last - range.0 + 1, i => range.0 + i)
  }

  /** A month is covered exactly when it lies between the first month and
      the smaller of the last month and the contract length. */
  lemma PackageMonthsCover(range: (int, int), months: int, m: int)
    ensures m in PackageMonths(range, months) <==> range.0 <= m <= range.1 && m <= months
  {
    var r := PackageMonths(range, months);
    if range.0 <= m <= range.1 && m <= months {
      assert r[m - range.0] == m;
    }
  }

  /** The months of a package are strictly ascending, so each handler call
      happens once, in month order. */
  lemma PackageMonthsAscending(range: (int, int), months: int)
    ensures forall i, j :: 0 <= i < j < |PackageMonths(range, months)| ==>
      PackageMonths(range, months)[i] < PackageMonths(range, months)[j]
  {
  }

  /** The events handler `h` adds over the months `ms`, in that order. */
  function EventsOver(h: Handler, mode: string, ms: seq<int>, q: real, start: int,
                      addMonths: (int, int) -> int): seq<Event>
  {
    if ms == [] then []
    else
      EventsOver(h, mode, ms[..|ms| - 1], q, start, addMonths)
        + MonthEvents(h, mode, ms[|ms| - 1], DateOfMonth(start, ms[|ms| - 1], addMonths), q)
  }

  /** What `process_monthly_package` adds: nothing for an inactive mode,
      otherwise the handler's events month after month. */
  function PackageEvents(h: Handler, mode: Option<string>, range: (int, int), q: real, months: int, start: int,
                         addMonths: (int, int) -> int): seq<Event>
  {
    if ModeActive(mode) then EventsOver(h, mode.value, PackageMonths(range, months), q, start, addMonths) else []
  }

  /** Every event of `EventsOver` comes from one of the months. */
  lemma {:induction false} EventsOverFrom(h: Handler, mode: string, ms: seq<int>, q: real, start: int,
                                          addMonths: (int, int) -> int, e: Event)
    requires e in EventsOver(h, mode, ms, q, start, addMonths)
    ensures exists i :: 0 <= i < |ms| && e in MonthEvents(h, mode, ms[i], DateOfMonth(start, ms[i], addMonths), q)
  {
    var n := |ms| - 1;
    var pre := ms[..n];
    if e in EventsOver(h, mode, pre, q, start, addMonths) {
      EventsOverFrom(h, mode, pre, q, start, addMonths, e);
      var i :| 0 <= i < |pre| && e in MonthEvents(h, mode, pre[i], DateOfMonth(start, pre[i], addMonths), q);
      assert pre[i] == ms[i];
    } else {
      assert e in MonthEvents(h, mode, ms[n], DateOfMonth(start, ms[n], addMonths), q);
    }
  }

  /** Tech care: only in "care" mode, only in covered months divisible by
      3, each a one-day technical step of impact 0.05 on its month's date. */
  lemma TechPackageShape(mode: Option<string>, range: (int, int), months: int, start: int,
                         addMonths: (int, int) -> int, e: Event)
    requires e in PackageEvents(Tech, mode, range, 0.0, months, start, addMonths)
    ensures mode == Some("care")
    ensures exists m :: (m in PackageMonths(range, months) && m % 3 == 0
      && e == Event("Tech Care (Quarterly) M" + IntToString(m), DateOfMonth(start, m, addMonths), "step", 1, 0.05,
                    Some("technical"), None))
  {
    var ms := PackageMonths(range, months);
    EventsOverFrom(Tech, mode.value, ms, 0.0, start, addMonths, e);
    var i :| 0 <= i < |ms| && e in MonthEvents(Tech, mode.value, ms[i], DateOfMonth(start, ms[i], addMonths), 0.0);
    assert ms[i] in ms;
  }

  /** Basic content packages: every optimisation step falls on a covered
      month divisible by 3; every other event is a publication ramp, which
      needs a positive quantity. */
  lemma BasicContentShape(range: (int, int), q: real, months: int, start: int,
                          addMonths: (int, int) -> int, e: Event)
    requires e in PackageEvents(Content, Some("basic"), range, q, months, start, addMonths)
    ensures exists m :: (m in PackageMonths(range, months) && e.date == DateOfMonth(start, m, addMonths)
      && (if e.kind == "step" then m % 3 == 0 else e.kind == "ramp" && q > 0.0))
  {
    var ms := PackageMonths(range, months);
    EventsOverFrom(Content, "basic", ms, q, start, addMonths, e);
    var i :| 0 <= i < |ms| && e in MonthEvents(Content, "basic", ms[i], DateOfMonth(start, ms[i], addMonths), q);
    var m := ms[i];
    ContentMonthMember("basic", m, DateOfMonth(start, m, addMonths), q, e);
    assert m in ms;
  }

  /** An event of one content month is either the publication ramp, which
      needs a positive quantity, or the optimisation step of an update
      month; both carry the month's date. */
  lemma ContentMonthMember(mode: string, m: int, d: int, q: real, e: Event)
    requires e in ContentMonth(mode, m, d, q)
    ensures e.date == d
    ensures (e.kind == "ramp" && q > 0.0) || (e.kind == "step" && UpdateMonth(mode, m))
  {
    var r := ContentMonth(mode, m, d, q);
    var j :| 0 <= j < |r| && r[j] == e;
    if !(q > 0.0 && j == 0) {
      assert j == |r| - 1 && UpdateMonth(mode, m);
    }
  }

  /** Plus and authority content packages add an optimisation step in
      every covered month, so at least as many events as months. */
  lemma {:induction false} RichContentEveryMonth(mode: string, ms: seq<int>, q: real, start: int,
                                                 addMonths: (int, int) -> int)
    requires mode == "plus" || mode == "authority"
    ensures |EventsOver(Content, mode, ms, q, start, addMonths)| == |ms| * (if q > 0.0 then 2 else 1)
  {
    if ms != [] {
      RichContentEveryMonth(mode, ms[..|ms| - 1], q, start, addMonths);
    }
  }

  /** Local packages: every event has impact 0.05 and event type "local". */
  lemma LocalPackageShape(mode: Option<string>, range: (int, int), months: int, start: int,
                          addMonths: (int, int) -> int, e: Event)
    requires e in PackageEvents(Local, mode, range, 0.0, months, start, addMonths)
    ensures e.impact == 0.05 && e.eventType == Some("local") && e.kind == "step" && e.duration == 1
  {
    var ms := PackageMonths(range, months);
    EventsOverFrom(Local, mode.value, ms, 0.0, start, addMonths, e);
  }

  /** An inactive mode (absent, empty or "none") adds nothing. */
  lemma InactivePackageIsEmpty(h: Handler, mode: Option<string>, range: (int, int), q: real, months: int,
                               start: int, addMonths: (int, int) -> int)
    requires mode.None? || mode == Some("") || mode == Some("none")
    ensures PackageEvents(h, mode, range, q, months, start, addMonths) == []
  {
  }

  /** `handle_*` as the code runs it: appends this month's events. */
  method HandleMonth(events: seq<Event>, h: Handler, mode: string, m: int, d: int, q: real)
    returns (out: seq<Event>)
    ensures out == events + MonthEvents(h, mode, m, d, q)
  {
    out := events;
    match h {
      case Content =>
        if q > 0.0 {
          var tplPub := TemplateData(ContentPublication, q);
          out := out + [FromTemplate("Content Pub (" + IntToString(Trunc(q)) + " art.) M" + IntToString(m), d,
                                     tplPub, "content", None)];
        }
        var tplUpd := TemplateData(ContentUpdate, 1.0);
        var isUpdateMonth := false;
        if mode == "basic" {
          if m % 3 == 0 { isUpdateMonth := true; }
        } else if mode == "plus" || mode == "authority" {
          isUpdateMonth := true;
        }
        if isUpdateMonth {
          out := out + [FromTemplate("Content Optimization (" + mode + ") M" + IntToString(m), d, tplUpd,
                                     "content", None)];
        }
      case Links =>
        if q > 0.0 {
          var tpl := TemplateData(LinkBuilding, q);
          out := out + [FromTemplate("Link Building (" + IntToString(Trunc(q)) + " links) M" + IntToString(m), d,
                                     tpl, "offpage", None)];
        }
      case Tech =>
        if mode == "care" {
          if m % 3 == 0 {
            var tpl := TemplateData(TechnicalFix, 1.0);
            out := out + [FromTemplate("Tech Care (Quarterly) M" + IntToString(m), d, tpl, "technical", None)];
          }
        }
      case OnPage =>
        var tpl := TemplateData(ContentUpdate, 1.0);
        out := out + [FromTemplate("On-Page Opt M" + IntToString(m), d, tpl, "content", None)];
      case Local =>
        var tpl := TemplateData(ContentUpdate, 1.0);
        tpl := tpl.(impact := 0.05);
        out := out + [FromTemplate("Local SEO M" + IntToString(m), d, tpl, "local", None)];
    }
  }

  /** One more month: appending its events to a prefix's events gives the
      events of the longer prefix. */
  lemma EventsOverStep(h: Handler, mode: string, ms: seq<int>, k: nat, q: real, start: int,
                       addMonths: (int, int) -> int, events: seq<Event>, out: seq<Event>)
    requires k < |ms|
    requires out == events + EventsOver(h, mode, ms[..k], q, start, addMonths)
    ensures out + MonthEvents(h, mode, ms[k], DateOfMonth(start, ms[k], addMonths), q)
         == events + EventsOver(h, mode, ms[..k + 1], q, start, addMonths)
  {
    var pre := EventsOver(h, mode, ms[..k], q, start, addMonths);
    var month := MonthEvents(h, mode, ms[k], DateOfMonth(start, ms[k], addMonths), q);
    assert ms[..k + 1][..k] == ms[..k];
    assert EventsOver(h, mode, ms[..k + 1], q, start, addMonths) == pre + month;
    assert (events + pre) + month == events + (pre + month);
  }

  /** The loop of `process_monthly_package` over the covered months. */
  method RunMonths(events: seq<Event>, h: Handler, mode: string, range: (int, int), q: real,
                   months: int, start: int, addMonths: (int, int) -> int)
    returns (out: seq<Event>)
    ensures out == events + EventsOver(h, mode, PackageMonths(range, months), q, start, addMonths)
  {
    out := events;
    var startM, endM := range.0, range.1;
    endM := if endM < months then endM else months;
    ghost var ms := PackageMonths(range, months);
    assert |ms| == if endM < startM then 0 else endM - startM + 1;
    var m := startM;
    while m <= endM
      invariant startM <= m <= startM + |ms|
      invariant out == events + EventsOver(h, mode, ms[..m - startM], q, start, addMonths)
      decreases endM - m
    {
      var d := DateOfMonth(start, m, addMonths);
      ghost var k := m - startM;
      assert ms[k] == m;
      EventsOverStep(h, mode, ms, k, q, start, addMonths, events, out);
      out := HandleMonth(out, h, mode, m, d, q);
      assert out == events + EventsOver(h, mode, ms[..k + 1], q, start, addMonths);
      m := m + 1;
      assert m - startM == k + 1;
    }
    assert ms[..m - startM] == ms;
  }

  /** `process_monthly_package`: for an active mode, calls the handler once
      per covered month in ascending order. */
  method ProcessMonthlyPackage(events: seq<Event>, h: Handler, mode: Option<string>, range: (int, int), q: real,
                               months: int, start: int, addMonths: (int, int) -> int)
    returns (out: seq<Event>)
    ensures out == events + PackageEvents(h, mode, range, q, months, start, addMonths)
  {
    out := events;
    if mode.Some? && mode.value != "" && mode.value != "none" {
      out := RunMonths(events, h, mode.value, range, q, months, start, addMonths);
    }
  }

  // ---------------------------------------------------------------------
  // Extras and the whole generator

  /** An entry of `extra_events`: its type, month and (for campaigns) name. */
  datatype Extra = Extra(kind: Option<string>, month: Option<int>, name: Option<string>)

  /** The event an extra entry adds, if its type is known. */
  function ExtraEvents(x: Extra, start: int, addMonths: (int, int) -> int): (r: seq<Event>)
    ensures var d := DateOfMonth(start, x.month.GetOr(1), addMonths);
      && (x.kind == Some("migration") ==>
            r == [Event("Site Migration / Replatform", d, "step", 1, -0.1, Some("technical"), None)])
      && (x.kind == Some("revamp") ==>
            r == [Event("Mega Content Revamp", d, "step", 1, 0.24, Some("content"), None)])
      && (x.kind == Some("campaign") ==>
            r == [Event(x.name.GetOr("Brand Campaign"), d, "window", 30, 0.15, Some("marketing"), None)])
      && (x.kind !in {Some("migration"), Some("revamp"), Some("campaign")} ==> r == [])
  {
    Round3Exact(-100);
    Round3Exact(240);
    Round3Exact(150);
    var d := DateOfMonth(start, x.month.GetOr(1), addMonths);
    if x.kind == Some("migration") then
      [FromTemplate("Site Migration / Replatform", d, TemplateData(SiteMigration, 1.0), "technical", None)]
    else if x.kind == Some("revamp") then
      [FromTemplate("Mega Content Revamp", d, TemplateData(ContentUpdate, 3.0), "content", None)]
    else if x.kind == Some("campaign") then
      [FromTemplate(x.name.GetOr("Brand Campaign"), d, TemplateData(PpcCampaign, 1.0), "marketing", None)]
    else []
  }

  function AllExtras(xs: seq<Extra>, start: int, addMonths: (int, int) -> int): seq<Event>
  {
    if xs == [] then [] else AllExtras(xs[..|xs| - 1], start, addMonths) + ExtraEvents(xs[|xs| - 1], start, addMonths)
  }

  /** The form fields the generator reads; `None` is a key the form does
      not send. */
  datatype FormData = FormData(
    contractStart: int,
    contractMonths: int,
    setupMode: Option<string>,
    contentMode: Option<string>,
    contentMonths: Option<(int, int)>,
    contentQuantity: Option<real>,
    linkMode: Option<string>,
    linkMonths: Option<(int, int)>,
    linkQuantity: Option<real>,
    techMode: Option<string>,
    techMonths: Option<(int, int)>,
    onpageEnabled: bool,
    onpageMonths: Option<(int, int)>,
    localEnabled: bool,
    localMonths: Option<(int, int)>,
    extraEvents: seq<Extra>)

  function ContentPart(f: FormData, addMonths: (int, int) -> int): seq<Event>
  {
    PackageEvents(Content, f.contentMode, f.contentMonths.GetOr((1, f.contractMonths)), f.contentQuantity.GetOr(0.0),
                  f.contractMonths, f.contractStart, addMonths)
  }

  function LinksPart(f: FormData, addMonths: (int, int) -> int): seq<Event>
  {
    PackageEvents(Links, f.linkMode, f.linkMonths.GetOr((1, f.contractMonths)), f.linkQuantity.GetOr(0.0),
                  f.contractMonths, f.contractStart, addMonths)
  }

  function TechPart(f: FormData, addMonths: (int, int) -> int): seq<Event>
  {
    PackageEvents(Tech, f.techMode, f.techMonths.GetOr((1, f.contractMonths)), 0.0,
                  f.contractMonths, f.contractStart, addMonths)
  }

  function OnPagePart(f: FormData, addMonths: (int, int) -> int): seq<Event>
  {
    if f.onpageEnabled then
      PackageEvents(OnPage, Some("active"), f.onpageMonths.GetOr((1, f.contractMonths)), 0.0,
                    f.contractMonths, f.contractStart, addMonths)
    else []
  }

  function LocalPart(f: FormData, addMonths: (int, int) -> int): seq<Event>
  {
    if f.localEnabled then
      PackageEvents(Local, Some("active"), f.localMonths.GetOr((1, f.contractMonths)), 0.0,
                    f.contractMonths, f.contractStart, addMonths)
    else []
  }

  /** All events of a form, section after section: setup, content, links,
      tech, on-page, local, extras. */
  function Prospecting(f: FormData, addMonths: (int, int) -> int): seq<Event>
  {
    SetupEvents(f.setupMode.GetOr("none"), f.contractStart)
      + ContentPart(f, addMonths) + LinksPart(f, addMonths) + TechPart(f, addMonths)
      + OnPagePart(f, addMonths) + LocalPart(f, addMonths)
      + AllExtras(f.extraEvents, f.contractStart, addMonths)
  }

  /** The setup section of the generator, appending to `events`. */
  method AppendSetup(events: seq<Event>, sMode: string, start: int) returns (out: seq<Event>)
    ensures out == events + SetupEvents(sMode, start)
  {
    out := events;
    if sMode != "none" {
      if sMode == "lite" {
        var tpl := TemplateData(TechnicalFix, 1.0);
        out := out + [FromTemplate("Setup SEO Lite (Tech Fix)", start, tpl, tpl.eventType,
                                   Some("Risoluzione errori tecnici di base (404, redirect, robots.txt)"))];
      } else if sMode == "full" {
        var tplT := TemplateData(TechnicalFix, 1.0);
        out := out + [FromTemplate("Setup SEO Full (Tech)", start, tplT, tplT.eventType,
                                   Some("Audit tecnico approfondito e fix strutturali"))];
        var tplC := TemplateData(ContentUpdate, 1.0);
        out := out + [FromTemplate("Setup SEO Full (Content Audit)", start, tplC, tplC.eventType,
                                   Some("Analisi semantica e potatura contenuti obsoleti"))];
      } else if sMode == "strategy" {
        var tplT := TemplateData(TechnicalFix, 1.0);
        out := out + [FromTemplate("Setup Strategy (Tech)", start, tplT, tplT.eventType, None)];
        var tplC := TemplateData(ContentUpdate, 1.0);
        out := out + [FromTemplate("Setup Strategy (Audit)", start, tplC, tplC.eventType, None)];
        var tplP := TemplateData(ContentPublication, 3.0);
        out := out + [FromTemplate("Setup Strategy (Initial Plan)", start, tplP, tplP.eventType,
                                   Some("Definizione piano editoriale strategico"))];
      }
    }
  }

  /** The extras section of the generator, appending to `events`; entries
      of unknown type add nothing. */
  method AppendExtras(events: seq<Event>, extras: seq<Extra>, start: int, addMonths: (int, int) -> int)
    returns (out: seq<Event>)
    ensures out == events + AllExtras(extras, start, addMonths)
  {
    out := events;
    var i := 0;
    while i < |extras|
      invariant 0 <= i <= |extras|
      invariant out == events + AllExtras(extras[..i], start, addMonths)
    {
      var added := ExtraEntry(extras[i], start, addMonths);
      assert extras[..i + 1][..i] == extras[..i];
      out := out + added;
      i := i + 1;
    }
    assert extras[..i] == extras;
  }

  /** The body of the extras loop for one entry: the event its type calls
      for, dated in its month (month 1 when it gives none). */
  method ExtraEntry(ext: Extra, start: int, addMonths: (int, int) -> int) returns (added: seq<Event>)
    ensures added == ExtraEvents(ext, start, addMonths)
  {
    var eType := ext.kind;
    var mIdx := ext.month.GetOr(1);
    var dateObj := DateOfMonth(start, mIdx, addMonths);
    added := [];
    if eType == Some("migration") {
      var tpl := TemplateData(SiteMigration, 1.0);
      added := [FromTemplate("Site Migration / Replatform", dateObj, tpl, "technical", None)];
    } else if eType == Some("revamp") {
      var tpl := TemplateData(ContentUpdate, 3.0);
      added := [FromTemplate("Mega Content Revamp", dateObj, tpl, "content", None)];
    } else if eType == Some("campaign") {
      var tpl := TemplateData(PpcCampaign, 1.0);
      var name := ext.name.GetOr("Brand Campaign");
      added := [FromTemplate(name, dateObj, tpl, "marketing", None)];
    }
  }

  /** `generate_prospecting_events`: the sections in their fixed order. */
  method GenerateProspectingEvents(f: FormData, addMonths: (int, int) -> int) returns (events: seq<Event>)
    ensures events == Prospecting(f, addMonths)
  {
    var start := f.contractStart;
    var months := f.contractMonths;
    events := AppendSetup([], f.setupMode.GetOr("none"), start);
    ghost var setup := events;
    events := ProcessMonthlyPackage(events, Content, f.contentMode, f.contentMonths.GetOr((1, months)),
                                    f.contentQuantity.GetOr(0.0), months, start, addMonths);
    ghost var c := events;
    events := ProcessMonthlyPackage(events, Links, f.linkMode, f.linkMonths.GetOr((1, months)),
                                    f.linkQuantity.GetOr(0.0), months, start, addMonths);
    ghost var l := events;
    events := ProcessMonthlyPackage(events, Tech, f.techMode, f.techMonths.GetOr((1, months)), 0.0,
                                    months, start, addMonths);
    ghost var t := events;
    if f.onpageEnabled {
      events := ProcessMonthlyPackage(events, OnPage, Some("active"), f.onpageMonths.GetOr((1, months)), 0.0,
                                      months, start, addMonths);
    }
    ghost var o := events;
    if f.localEnabled {
      events := ProcessMonthlyPackage(events, Local, Some("active"), f.localMonths.GetOr((1, months)), 0.0,
                                      months, start, addMonths);
    }
    ghost var lo := events;
    events := AppendExtras(events, f.extraEvents, start, addMonths);
    assert setup == SetupEvents(f.setupMode.GetOr("none"), start);
    assert c == setup + ContentPart(f, addMonths);
    assert l == c + LinksPart(f, addMonths);
    assert t == l + TechPart(f, addMonths);
    assert o == t + OnPagePart(f, addMonths);
    assert lo == o + LocalPart(f, addMonths);
  }

  /** The form `app.py` builds sends `content_enabled` and `link_enabled`
      but no `content_mode` or `link_mode`, so such a form yields no content
      and no link events at all. */
  lemma AppFormHasNoContentOrLinks(f: FormData, addMonths: (int, int) -> int)
    requires f.contentMode.None? && f.linkMode.None?
    ensures Prospecting(f, addMonths)
         == SetupEvents(f.setupMode.GetOr("none"), f.contractStart)
            + TechPart(f, addMonths) + OnPagePart(f, addMonths) + LocalPart(f, addMonths)
            + AllExtras(f.extraEvents, f.contractStart, addMonths)
  {
    var s := SetupEvents(f.setupMode.GetOr("none"), f.contractStart);
    var c, l := ContentPart(f, addMonths), LinksPart(f, addMonths);
    var te, o, lo := TechPart(f, addMonths), OnPagePart(f, addMonths), LocalPart(f, addMonths);
    var x := AllExtras(f.extraEvents, f.contractStart, addMonths);
    assert c == [] && l == [];
    assert Prospecting(f, addMonths) == s + c + l + te + o + lo + x;
    assert s + c + l == s;
  }
}
