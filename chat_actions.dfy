/** The merge of assistant suggestions into the session's event list, from
    `handle_chat_actions` in `tools/chat_actions.py`: each suggestion adds,
    removes, updates or upserts an event keyed by its case-insensitive,
    trimmed name. The JSON extraction and the button are outside the model;
    the suggestions arrive already parsed. */
module ChatActions {
  import opened Common
  import opened Text

  /** A suggested field: absent, a value the conversion (`pd.to_datetime`,
      `float`, `int`) accepts, or one it rejects with an exception. */
  datatype Field<T> = Absent | Valid(value: T) | Invalid

  /** An event after some field assignments, and whether every conversion
      succeeded. */
  datatype Assigned = Assigned(event: Event, ok: bool)

  /** The list after one suggestion, and whether it counted as a change. */
  datatype Outcome = Outcome(events: seq<Event>, counted: bool)

  /** The list after several suggestions, and how many of them counted. */
  datatype Merged = Merged(events: seq<Event>, count: nat)

  /** One item of `suggested_regressors`. */
  datatype Suggestion = Suggestion(
    action: Option<string>,
    name: Option<string>,
    date: Field<int>,
    kind: Option<string>,
    impact: Field<real>,
    duration: Field<int>)

  /** `is_match`: equal after lower-casing and stripping. */
  predicate NameMatches(a: string, b: string)
  {
    Strip(Lower(a)) == Strip(Lower(b))
  }

  /** `reg.get("action", "add").lower().strip()` */
  function ActionOf(s: Suggestion): string
  {
    Strip(Lower(s.action.GetOr("add")))
  }

  /** `str(reg.get("name", "Unknown")).strip()` */
  function NameOf(s: Suggestion): string
  {
    Strip(s.name.GetOr("Unknown"))
  }

  // ---- Field updates ----

  datatype FieldName = DateField | TypeField | ImpactField | DurationField

  /** The field order of the `update` branch. */
  const UpdateOrder: seq<FieldName> := [DateField, TypeField, ImpactField, DurationField]
  /** The field order of the forced update in the `add` branch. */
  const UpsertOrder: seq<FieldName> := [DateField, TypeField, DurationField, ImpactField]

  /** One `if key in reg: e[key] = convert(reg[key])`; `false` when the
      conversion raises. */
  function SetField(e: Event, s: Suggestion, f: FieldName): (r: Assigned)
  {
    match f
    case DateField =>
      (match s.date
       case Absent => Assigned(e, true)
       case Valid(d) => Assigned(e.(date := d), true)
       case Invalid => Assigned(e, false))
    case TypeField =>
      if s.kind.Some? then Assigned(e.(kind := s.kind.value), true) else Assigned(e, true)
    case ImpactField =>
      (match s.impact
       case Absent => Assigned(e, true)
       case Valid(v) => Assigned(e.(impact := v), true)
       case Invalid => Assigned(e, false))
    case DurationField =>
      (match s.duration
       case Absent => Assigned(e, true)
       case Valid(d) => Assigned(e.(duration := d), true)
       case Invalid => Assigned(e, false))
  }

  /** The assignments in order; the first failing conversion stops the
      sequence, and the assignments before it stay made. */
  function ApplyFields(e: Event, s: Suggestion, order: seq<FieldName>): (r: Assigned)
    ensures r.event.name == e.name && r.event.eventType == e.eventType && r.event.notes == e.notes
    decreases |order|
  {
    if order == [] then Assigned(e, true)
    else
      var step := SetField(e, s, order[0]);
      if !step.ok then step else ApplyFields(step.event, s, order[1..])
  }

  /** No conversion fails. */
  predicate Convertible(s: Suggestion)
  {
    !s.date.Invalid? && !s.impact.Invalid? && !s.duration.Invalid?
  }

  /** Whether assigning field `f` of the suggestion raises. */
  predicate Fails(s: Suggestion, f: FieldName)
  {
    match f
    case DateField => s.date.Invalid?
    case TypeField => false
    case ImpactField => s.impact.Invalid?
    case DurationField => s.duration.Invalid?
  }

  /** The assignments succeed exactly when none of the fields in the order
      fails to convert. */
  lemma {:induction false} ApplyFieldsOk(e: Event, s: Suggestion, order: seq<FieldName>)
    ensures ApplyFields(e, s, order).ok <==> forall k :: 0 <= k < |order| ==> !Fails(s, order[k])
    decreases |order|
  {
    if order != [] {
      var step := SetField(e, s, order[0]);
      assert step.ok <==> !Fails(s, order[0]);
      ApplyFieldsOk(step.event, s, order[1..]);
      assert forall k :: 1 <= k < |order| ==> order[k] == order[1..][k - 1];
    }
  }

  /** Both orders assign all four fields, so they succeed exactly for a
      convertible suggestion. */
  lemma OrdersOkIffConvertible(e: Event, s: Suggestion)
    ensures ApplyFields(e, s, UpdateOrder).ok <==> Convertible(s)
    ensures ApplyFields(e, s, UpsertOrder).ok <==> Convertible(s)
  {
    ApplyFieldsOk(e, s, UpdateOrder);
    ApplyFieldsOk(e, s, UpsertOrder);
    assert Fails(s, UpdateOrder[0]) == s.date.Invalid?;
    assert Fails(s, UpdateOrder[2]) == s.impact.Invalid?;
    assert Fails(s, UpdateOrder[3]) == s.duration.Invalid?;
    assert Fails(s, UpsertOrder[2]) == s.duration.Invalid?;
    assert Fails(s, UpsertOrder[3]) == s.impact.Invalid?;
  }

  function FieldOr<T>(f: Field<T>, old_: T): T
  {
    if f.Valid? then f.value else old_
  }

  /** When nothing fails, in either order, exactly the supplied fields are
      replaced and every other field keeps its value. */
  lemma ApplyFieldsWhenConvertible(e: Event, s: Suggestion)
    requires Convertible(s)
    ensures ApplyFields(e, s, UpdateOrder) == ApplyFields(e, s, UpsertOrder)
    ensures ApplyFields(e, s, UpdateOrder).ok
    ensures ApplyFields(e, s, UpdateOrder).event
         == Event(e.name, FieldOr(s.date, e.date), s.kind.GetOr(e.kind), FieldOr(s.duration, e.duration),
                  FieldOr(s.impact, e.impact), e.eventType, e.notes)
  {
    assert UpdateOrder[1..][1..][1..][1..] == [] && UpsertOrder[1..][1..][1..][1..] == [];
  }

  // ---- Finding and removing ----

  /** The position of the first event whose name matches `nm`. */
  function FirstMatch(events: seq<Event>, nm: string): (r: Option<nat>)
    ensures r.None? <==> forall j :: 0 <= j < |events| ==> !NameMatches(events[j].name, nm)
    ensures r.Some? ==> r.value < |events| && NameMatches(events[r.value].name, nm)
    ensures r.Some? ==> forall j :: 0 <= j < r.value ==> !NameMatches(events[j].name, nm)
  {
    if events == [] then None
    else if NameMatches(events[0].name, nm) then Some(0)
    else
      assert forall j :: 1 <= j < |events| ==> events[j] == events[1..][j - 1];
      match FirstMatch(events[1..], nm)
      case None => None
      case Some(k) => Some(k + 1)
  }

  /** The loop `for e in current_events: if is_match(...)` and `next(...)`. */
  method FindFirstMatch(events: seq<Event>, nm: string) returns (r: Option<nat>)
    ensures r == FirstMatch(events, nm)
  {
    var i := 0;
    while i < |events|
      invariant 0 <= i <= |events|
      invariant forall j :: 0 <= j < i ==> !NameMatches(events[j].name, nm)
    {
      if NameMatches(events[i].name, nm) {
        FirstMatchIs(events, nm, i);
        return Some(i);
      }
      i := i + 1;
    }
    return None;
  }

  lemma FirstMatchIs(events: seq<Event>, nm: string, i: nat)
    requires i < |events| && NameMatches(events[i].name, nm)
    requires forall j :: 0 <= j < i ==> !NameMatches(events[j].name, nm)
    ensures FirstMatch(events, nm) == Some(i)
  {
    var r := FirstMatch(events, nm);
    assert r.Some?;
    assert !(r.value < i) && !(r.value > i);
  }

  /** One event as the removal keeps it: dropped when its name matches. */
  function Kept(e: Event, nm: string): (r: seq<Event>)
    ensures |r| <= 1
  {
    if NameMatches(e.name, nm) then [] else [e]
  }

  /** The events whose name does not match, in order. */
  function WithoutMatches(events: seq<Event>, nm: string): (r: seq<Event>)
    ensures |r| <= |events|
  {
    if events == [] then [] else Kept(events[0], nm) + WithoutMatches(events[1..], nm)
  }

  /** Removal keeps exactly the events whose name does not match. */
  lemma {:induction false} WithoutMatchesMembers(events: seq<Event>, nm: string)
    ensures forall e :: e in WithoutMatches(events, nm) <==> e in events && !NameMatches(e.name, nm)
  {
    if events != [] {
      WithoutMatchesMembers(events[1..], nm);
      assert events == [events[0]] + events[1..];
    }
  }

  /** Removal shortens the list exactly when some event matched. */
  lemma {:induction false} WithoutMatchesShorter(events: seq<Event>, nm: string)
    ensures |WithoutMatches(events, nm)| < |events| <==> FirstMatch(events, nm).Some?
  {
    if events != [] {
      WithoutMatchesShorter(events[1..], nm);
      if !NameMatches(events[0].name, nm) {
        var t := FirstMatch(events[1..], nm);
        assert FirstMatch(events, nm).Some? <==> t.Some?;
      }
    }
  }

  // ---- One suggestion ----

  /** A brand-new event from a suggestion that carries a valid date. */
  function NewEvent(s: Suggestion): Event
    requires s.date.Valid?
  {
    Event(NameOf(s), s.date.value, s.kind.GetOr("step"), FieldOr(s.duration, 30),
          FieldOr(s.impact, 0.0), None, None)
  }

  /** The `add`/`create` branch: force-update the first match, or create
      an event at the end when a date is given. */
  function Upsert(events: seq<Event>, s: Suggestion): (r: Outcome)
  {
    var m := FirstMatch(events, NameOf(s));
    if m.Some? then
      var u := ApplyFields(events[m.value], s, UpsertOrder);
      Outcome(events[m.value := u.event], u.ok)
    else Create(events, s)
  }

  /** The creation path of `add`: without a date nothing is created, and a
      conversion that raises leaves the list as it was. */
  function Create(events: seq<Event>, s: Suggestion): (r: Outcome)
  {
    if s.date.Absent? || !Convertible(s) then Outcome(events, false)
    else Outcome(events + [NewEvent(s)], true)
  }

  /** The four ways the loop treats an action; `create` is handled like
      `add`. */
  datatype Action = RemoveAction | UpdateAction | AddAction | OtherAction

  function ActionKind(s: Suggestion): Action
  {
    var action := ActionOf(s);
    if action == "remove" then RemoveAction
    else if action == "update" then UpdateAction
    else if action == "add" || action == "create" then AddAction
    else OtherAction
  }

  /** The `update` branch: the first match gets the fields in update order;
      without a match it falls through to the `add` branch. */
  function UpdateItem(events: seq<Event>, s: Suggestion): (r: Outcome)
  {
    var m := FirstMatch(events, NameOf(s));
    if m.Some? then
      var u := ApplyFields(events[m.value], s, UpdateOrder);
      Outcome(events[m.value := u.event], u.ok)
    else Create(events, s)
  }

  /** The effect of one suggestion: the new list and whether it counted. */
  function ApplyItem(events: seq<Event>, s: Suggestion): (r: Outcome)
  {
    match ActionKind(s)
    case RemoveAction =>
      var kept := WithoutMatches(events, NameOf(s));
      Outcome(kept, |kept| < |events|)
    case UpdateAction => UpdateItem(events, s)
    case AddAction => Upsert(events, s)
    case OtherAction => Outcome(events, false)
  }

  /** One iteration of the suggestion loop, in the branch structure of the
      source. */
  method ApplySuggestion(current: seq<Event>, s: Suggestion) returns (events: seq<Event>, counted: bool)
    ensures ApplyItem(current, s) == Outcome(events, counted)
  {
    var action := ActionOf(s);
    var nm := NameOf(s);
    events, counted := current, false;
    if action == "remove" {
      assert ActionKind(s) == RemoveAction;
      events := RemoveMatches(current, nm);
      counted := |events| < |current|;
      return;
    }
    if action == "update" {
      assert ActionKind(s) == UpdateAction;
      var m := FindFirstMatch(current, nm);
      if m.Some? {
        var u := ApplyFields(current[m.value], s, UpdateOrder);
        events, counted := current[m.value := u.event], u.ok;
        return;
      }
      action := "add";
    } else if action == "add" || action == "create" {
      assert ActionKind(s) == AddAction;
    } else {
      assert ActionKind(s) == OtherAction;
    }
    if action == "add" || action == "create" {
      events, counted := UpsertEvent(current, s);
    }
  }

  /** The `add` branch as the loop runs it: force-update the first match,
      or append a new event when the suggestion has a usable date. */
  method UpsertEvent(current: seq<Event>, s: Suggestion) returns (events: seq<Event>, counted: bool)
    ensures Upsert(current, s) == Outcome(events, counted)
  {
    events, counted := current, false;
    var existing := FindFirstMatch(current, NameOf(s));
    if existing.Some? {
      var u := ApplyFields(current[existing.value], s, UpsertOrder);
      events, counted := current[existing.value := u.event], u.ok;
    } else if s.date.Valid? && Convertible(s) {
      events, counted := current + [NewEvent(s)], true;
    }
  }

  /** The comprehension of `remove`, as a loop over the list. */
  method RemoveMatches(current: seq<Event>, nm: string) returns (kept: seq<Event>)
    ensures kept == WithoutMatches(current, nm)
  {
    kept := [];
    var i := 0;
    while i < |current|
      invariant 0 <= i <= |current|
      invariant kept == WithoutMatches(current[..i], nm)
    {
      KeepOrDrop(current, nm, i);
      if !NameMatches(current[i].name, nm) {
        kept := kept + [current[i]];
      }
      i := i + 1;
    }
    assert current[..|current|] == current;
  }

  lemma KeepOrDrop(events: seq<Event>, nm: string, i: nat)
    requires i < |events|
    ensures WithoutMatches(events[..i + 1], nm)
         == WithoutMatches(events[..i], nm) + (if NameMatches(events[i].name, nm) then [] else [events[i]])
  {
    WithoutMatchesAppend(events[..i], [events[i]], nm);
    assert events[..i + 1] == events[..i] + [events[i]];
  }

  lemma {:induction false} WithoutMatchesAppend(a: seq<Event>, b: seq<Event>, nm: string)
    ensures WithoutMatches(a + b, nm) == WithoutMatches(a, nm) + WithoutMatches(b, nm)
  {
    if a == [] {
      assert a + b == b;
    } else {
      assert (a + b)[1..] == a[1..] + b;
      WithoutMatchesAppend(a[1..], b, nm);
    }
  }

  // ---- All suggestions ----

  /** The first `n` items fed in order through `step`, starting from
      `events`: the list after them and how many of them counted. */
  function Replay(step: (seq<Event>, Suggestion) -> Outcome, events: seq<Event>,
                  items: seq<Suggestion>, n: nat): (r: Merged)
    requires n <= |items|
    ensures r.count <= n
  {
    if n == 0 then Merged(events, 0)
    else
      var before := Replay(step, events, items, n - 1);
      var after := step(before.events, items[n - 1]);
      Merged(after.events, before.count + (if after.counted then 1 else 0))
  }

  /** Later items do not change what the earlier ones did. */
  lemma {:induction false} ReplayPrefix(step: (seq<Event>, Suggestion) -> Outcome, events: seq<Event>,
                                        items: seq<Suggestion>, more: seq<Suggestion>, n: nat)
    requires n <= |items|
    ensures Replay(step, events, items + more, n) == Replay(step, events, items, n)
  {
    if n > 0 {
      assert (items + more)[n - 1] == items[n - 1];
      ReplayPrefix(step, events, items, more, n - 1);
    }
  }

  /** One more item is fed to `step` after the earlier ones. */
  lemma ReplayStep(step: (seq<Event>, Suggestion) -> Outcome, events: seq<Event>,
                   items: seq<Suggestion>, n: nat, after: Outcome)
    requires n < |items|
    requires after == step(Replay(step, events, items, n).events, items[n])
    ensures Replay(step, events, items, n + 1) == Merged(after.events, Replay(step, events, items, n).count + if after.counted then 1 else 0)
  {
  }

  /** All the suggestions applied in order, each by `ApplyItem`. */
  function ApplyAll(events: seq<Event>, items: seq<Suggestion>): (r: Merged)
    ensures r.count <= |items|
  {
    Replay(ApplyItem, events, items, |items|)
  }

  /** The loop over the suggestions, on the working copy. */
  method ApplyEach(initial: seq<Event>, items: seq<Suggestion>) returns (current: seq<Event>, count: nat)
    ensures current == ApplyAll(initial, items).events && count == ApplyAll(initial, items).count
  {
    current, count := initial, 0;
    var i := 0;
    while i < |items|
      invariant 0 <= i <= |items|
      invariant current == Replay(ApplyItem, initial, items, i).events
      invariant count == Replay(ApplyItem, initial, items, i).count
    {
      var counted;
      current, counted := ApplySuggestion(current, items[i]);
      ReplayStep(ApplyItem, initial, items, i, Outcome(current, counted));
      if counted {
        count := count + 1;
      }
      i := i + 1;
    }
  }

  /** The session state the handler reads and writes. */
  class ChatSession {
    var events: Option<seq<Event>>
    var editorKey: Option<int>
    var triggerForecastRun: bool

    constructor (events: Option<seq<Event>>, editorKey: Option<int>, triggerForecastRun: bool)
      ensures this.events == events && this.editorKey == editorKey
      ensures this.triggerForecastRun == triggerForecastRun
    {
      this.events := events;
      this.editorKey := editorKey;
      this.triggerForecastRun := triggerForecastRun;
    }

    /** "Applica Modifiche": apply every suggestion to a copy of the
        session events; only when at least one change counted are the
        events replaced, the editor key bumped and a forecast run
        requested. Returns the count. */
    method HandleChatActions(items: seq<Suggestion>) returns (count: nat)
      modifies this
      ensures count == ApplyAll(old(events).GetOr([]), items).count
      ensures events == Some(if count > 0 then ApplyAll(old(events).GetOr([]), items).events else old(events).GetOr([]))
      ensures editorKey == (if count > 0 then Some(old(editorKey).GetOr(0) + 1) else old(editorKey))
      ensures triggerForecastRun == (count > 0 || old(triggerForecastRun))
    {
      var initial := events.GetOr([]);
      var current;
      current, count := ApplyEach(initial, items);
      ghost var merged := ApplyAll(initial, items);
      assert current == merged.events && count == merged.count;
      Commit(initial, current, count);
    }

    /** The end of the handler: the working copy replaces the events only
        when something counted; otherwise the session keeps the original
        list (now stored even when it was missing). */
    method Commit(initial: seq<Event>, current: seq<Event>, count: nat)
      modifies this
      ensures events == Some(if count > 0 then current else initial)
      ensures editorKey == (if count > 0 then Some(old(editorKey).GetOr(0) + 1) else old(editorKey))
      ensures triggerForecastRun == (count > 0 || old(triggerForecastRun))
    {
      var key := editorKey;
      if count > 0 {
        key := Some(key.GetOr(0) + 1);
        events, editorKey, triggerForecastRun := Some(current), key, true;
      } else {
        events := Some(initial);
      }
    }
  }

  // ---- Properties of one suggestion ----

  /** Matching ignores case and surrounding white space, and the order of
      lower-casing and stripping does not matter. */
  lemma NameMatching(a: string, b: string)
    ensures NameMatches(a, b) <==> Lower(Strip(a)) == Lower(Strip(b))
    ensures NameMatches(a, b) <==> NameMatches(b, a)
    ensures NameMatches(a, Lower(a)) && NameMatches(a, Strip(a))
  {
    StripLowerCommute(a);
    StripLowerCommute(b);
    StripLowerCommute(Lower(a));
    LowerIdempotent(a);
    StripIdempotent(a);
    StripLowerCommute(Strip(a));
  }

  /** `remove` deletes every matching event, keeps the others in order and
      counts only when it deleted something. */
  lemma RemoveDeletesMatches(events: seq<Event>, s: Suggestion)
    requires ActionOf(s) == "remove"
    ensures var r := ApplyItem(events, s);
      && (forall e :: e in r.events <==> e in events && !NameMatches(e.name, NameOf(s)))
      && (r.counted <==> exists j :: 0 <= j < |events| && NameMatches(events[j].name, NameOf(s)))
  {
    assert ActionKind(s) == RemoveAction;
    WithoutMatchesShorter(events, NameOf(s));
    WithoutMatchesMembers(events, NameOf(s));
  }

  /** `update` of an existing name changes only the first matching event,
      which takes the assignments in update order (up to a conversion that
      raises, keeping the writes before it); the list keeps its length, and
      the change counts exactly when every conversion succeeds, in which
      case exactly the supplied fields are replaced. */
  lemma UpdateChangesFirstMatchOnly(events: seq<Event>, s: Suggestion)
    requires ActionOf(s) == "update"
    requires FirstMatch(events, NameOf(s)).Some?
    ensures var i := FirstMatch(events, NameOf(s)).value;
      var r := ApplyItem(events, s);
      && |r.events| == |events|
      && (forall j :: 0 <= j < |events| && j != i ==> r.events[j] == events[j])
      && r.events[i] == ApplyFields(events[i], s, UpdateOrder).event
      && (r.counted <==> Convertible(s))
    ensures var i := FirstMatch(events, NameOf(s)).value;
      var r := ApplyItem(events, s);
      var e := events[i];
      Convertible(s) ==>
        r.events[i] == Event(e.name, FieldOr(s.date, e.date), s.kind.GetOr(e.kind), FieldOr(s.duration, e.duration),
                             FieldOr(s.impact, e.impact), e.eventType, e.notes)
  {
    var i := FirstMatch(events, NameOf(s)).value;
    assert ActionKind(s) == UpdateAction;
    var u := ApplyFields(events[i], s, UpdateOrder);
    assert ApplyItem(events, s) == Outcome(events[i := u.event], u.ok);
    OrdersOkIffConvertible(events[i], s);
    if Convertible(s) {
      ApplyFieldsWhenConvertible(events[i], s);
    }
  }

  /** `update` without a match behaves exactly like `add`. */
  lemma UpdateWithoutMatchIsAdd(events: seq<Event>, s: Suggestion)
    requires ActionOf(s) == "update"
    requires FirstMatch(events, NameOf(s)).None?
    ensures ApplyItem(events, s) == ApplyItem(events, s.(action := Some("add")))
  {
    var a := s.(action := Some("add"));
    assert Lower("add") == "add";
    TrimStartNoSpace("add");
    TrimEndNoSpace("add");
    assert ActionOf(a) == "add";
    assert ActionKind(s) == UpdateAction && ActionKind(a) == AddAction;
    assert ApplyItem(events, s) == Upsert(events, s);
    assert ApplyItem(events, a) == Upsert(events, a);
  }

  /** `add` or `create` of a name that exists updates the first matching
      event and never adds a duplicate. */
  lemma AddExistingUpdates(events: seq<Event>, s: Suggestion)
    requires ActionKind(s) == AddAction
    requires FirstMatch(events, NameOf(s)).Some?
    ensures var i := FirstMatch(events, NameOf(s)).value;
      var r := ApplyItem(events, s);
      && |r.events| == |events|
      && (forall j :: 0 <= j < |events| && j != i ==> r.events[j] == events[j])
      && r.events[i] == ApplyFields(events[i], s, UpsertOrder).event
      && (r.counted <==> Convertible(s))
  {
    var i := FirstMatch(events, NameOf(s)).value;
    var u := ApplyFields(events[i], s, UpsertOrder);
    assert ApplyItem(events, s) == Outcome(events[i := u.event], u.ok);
    OrdersOkIffConvertible(events[i], s);
  }

  /** A new event is created only for an unknown name with a date; it goes
      at the end with the defaults for whatever was not supplied. */
  lemma CreateAppends(events: seq<Event>, s: Suggestion)
    requires ActionOf(s) in {"add", "create", "update"}
    requires FirstMatch(events, NameOf(s)).None?
    ensures s.date.Absent? ==> ApplyItem(events, s) == Outcome(events, false)
    ensures s.date.Valid? && Convertible(s) ==>
      ApplyItem(events, s)
        == Outcome(events + [Event(NameOf(s), s.date.value, s.kind.GetOr("step"), FieldOr(s.duration, 30),
                            FieldOr(s.impact, 0.0), None, None)], true)
    ensures !Convertible(s) ==> ApplyItem(events, s) == Outcome(events, false)
  {
    assert ActionKind(s) == AddAction || ActionKind(s) == UpdateAction;
    assert ApplyItem(events, s) == Upsert(events, s);
  }

  /** An action other than add, create, update and remove changes nothing
      and does not count. */
  lemma UnknownActionIgnored(events: seq<Event>, s: Suggestion)
    requires ActionOf(s) !in {"add", "create", "update", "remove"}
    ensures ApplyItem(events, s) == Outcome(events, false)
  {
    assert ActionKind(s) == OtherAction;
  }

  /** A conversion that raises in the middle of `update` leaves the fields
      assigned before it in place and does not count; with a valid date and
      type but an unconvertible impact, the event keeps its old impact and
      duration. */
  lemma UpdatePartialOnError(events: seq<Event>, s: Suggestion)
    requires ActionOf(s) == "update"
    requires FirstMatch(events, NameOf(s)).Some?
    requires s.date.Valid? && s.kind.Some? && s.impact.Invalid?
    ensures var i := FirstMatch(events, NameOf(s)).value;
      var r := ApplyItem(events, s);
      && !r.counted
      && r.events == events[i := events[i].(date := s.date.value, kind := s.kind.value)]
  {
    var i := FirstMatch(events, NameOf(s)).value;
    PartialFields(events[i], s);
    assert ActionKind(s) == UpdateAction;
  }

  /** The `update` order with a valid date and type and an unconvertible
      impact: the date and type are set, then the sequence stops. */
  lemma PartialFields(e: Event, s: Suggestion)
    requires s.date.Valid? && s.kind.Some? && s.impact.Invalid?
    ensures ApplyFields(e, s, UpdateOrder) == Assigned(e.(date := s.date.value, kind := s.kind.value), false)
  {
    var e1 := e.(date := s.date.value);
    var e2 := e1.(kind := s.kind.value);
    assert UpdateOrder[1..] == [TypeField, ImpactField, DurationField];
    assert UpdateOrder[1..][1..] == [ImpactField, DurationField];
    assert ApplyFields(e1, s, UpdateOrder[1..]) == ApplyFields(e2, s, UpdateOrder[1..][1..]);
    assert e2 == e.(date := s.date.value, kind := s.kind.value);
  }

  /** Appending a suggestion applies it to the result of the earlier ones. */
  lemma ApplyAllSnoc(events: seq<Event>, items: seq<Suggestion>, s: Suggestion)
    ensures ApplyAll(events, items + [s]).events == ApplyItem(ApplyAll(events, items).events, s).events
    ensures ApplyAll(events, items + [s]).count
         == ApplyAll(events, items).count + (if ApplyItem(ApplyAll(events, items).events, s).counted then 1 else 0)
  {
    ReplaySnoc(ApplyItem, events, items, s);
  }

  lemma ReplaySnoc(step: (seq<Event>, Suggestion) -> Outcome, events: seq<Event>,
                   items: seq<Suggestion>, s: Suggestion)
    ensures var before := Replay(step, events, items, |items|);
      Replay(step, events, items + [s], |items| + 1)
        == Merged(step(before.events, s).events, before.count + if step(before.events, s).counted then 1 else 0)
  {
    ReplayPrefix(step, events, items, [s], |items|);
    assert (items + [s])[|items|] == s;
  }
}
