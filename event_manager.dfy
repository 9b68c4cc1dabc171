/**
 * The idempotent sync reconciler of src/calendar/event-manager.ts.
 *
 * `Run` is the reference definition: it walks the plan (the five categories
 * in declared order, each category's dates in input order) over a list of
 * stored events, skipping an item whose event is already there and otherwise
 * building and storing its event. `Run` is stated for any builder, so that
 * what it promises about order, lookups and creates does not depend on how
 * dates are rendered; the sync itself uses `Build`, the event
 * `createWasteEvent` inserts. The class `EventManager` does the same walk
 * with loops against a `CalendarClient` and is proved to agree with `Run`.
 */
module Reconciler {
  import opened Wrappers
  import opened Dates
  import opened Schemas
  import opened Config
  import opened Calendar

  datatype Status = Added | Skipped

  /** `SyncResult`; `typeLabel` is the source's `type` field, the event summary. */
  datatype SyncResult = SyncResult(typeLabel: string, date: string, status: Status)

  /** One (summary, date) pair the reconciler visits. */
  datatype Item = Item(summary: string, date: string)

  // ---------------------------------------------------------------------------
  // The visiting order.

  function Pairs(summary: string, dates: seq<string>): (items: seq<Item>)
    ensures |items| == |dates| && forall i :: 0 <= i < |dates| ==> items[i] == Item(summary, dates[i])
  {
    seq(|dates|, i requires 0 <= i < |dates| => Item(summary, dates[i]))
  }

  /** The items of the categories `cs`, category by category, dates in input order. */
  function Visits(cal: WasteCalendar, cs: seq<Category>): seq<Item> {
    if cs == [] then []
    else
      var c := cs[|cs| - 1];
      Visits(cal, cs[..|cs| - 1]) + Pairs(Label(c), Schemas.Dates(cal, c))
  }

  /** Everything one sync visits, in order. */
  function Plan(cal: WasteCalendar): seq<Item> {
    Visits(cal, Categories)
  }

  /** Taking one more category appends that category's items. */
  lemma VisitsSnoc(cal: WasteCalendar, cs: seq<Category>, k: nat)
    requires k < |cs|
    ensures Visits(cal, cs[..k + 1]) == Visits(cal, cs[..k]) + Pairs(Label(cs[k]), Schemas.Dates(cal, cs[k]))
  {
    assert cs[..k + 1][..k] == cs[..k];
  }

  /**
   * Category order as declared, then input order; nothing sorted, nothing
   * merged. The labels are those of `Config.LabelTable`.
   */
  lemma PlanOrder(cal: WasteCalendar)
    ensures Plan(cal) == Pairs(Label(MetalsAndPlastics), cal.metalsAndPlastics) + Pairs(Label(Paper), cal.paper)
                         + Pairs(Label(Glass), cal.glass) + Pairs(Label(Bio), cal.bio)
                         + Pairs(Label(Mixed), cal.mixed)
  {
    var cs := Categories;
    assert cs[..0] == [];
    VisitsSnoc(cal, cs, 0);
    VisitsSnoc(cal, cs, 1);
    VisitsSnoc(cal, cs, 2);
    VisitsSnoc(cal, cs, 3);
    VisitsSnoc(cal, cs, 4);
    assert [] + Pairs(Label(MetalsAndPlastics), cal.metalsAndPlastics) == Pairs(Label(MetalsAndPlastics), cal.metalsAndPlastics);
    assert cs[..5] == cs;
  }

  /** A sync visits as many items as the calendar lists dates. */
  lemma PlanLength(cal: WasteCalendar)
    ensures |Plan(cal)| == |cal.metalsAndPlastics| + |cal.paper| + |cal.glass| + |cal.bio| + |cal.mixed|
  {
    PlanOrder(cal);
  }

  lemma {:induction false} VisitsPrefix(cal: WasteCalendar, cs: seq<Category>, k: nat)
    requires k <= |cs|
    ensures Visits(cal, cs[..k]) <= Visits(cal, cs)
    decreases |cs|
  {
    if k < |cs| {
      var init := cs[..|cs| - 1];
      assert init[..k] == cs[..k];
      VisitsPrefix(cal, init, k);
    } else {
      assert cs[..k] == cs;
    }
  }

  // ---------------------------------------------------------------------------
  // One item.

  /** The event `createWasteEvent` inserts, or the error building it throws. */
  function WasteEvent(summary: string, date: string): (r: Result<Event, DateError>)
    ensures r.Err? <==> !ValidateDate(date)
    ensures r.Err? ==> r.error == InvalidDate(date)
    ensures r.Ok? ==> && r.value.summary == Some(summary)
                      && r.value.start == AllDay(date)
                      && r.value.end == AllDay(GetNextDay(date).value)
                      && r.value.reminders == Reminders(false, [ReminderOverride("popup", 360)])
  {
    match FormatDateForCalendar(date)
    case Err(e) => Err(e)
    case Ok(range) =>
      Ok(Event(Some(summary), AllDay(range.start), AllDay(range.end),
               Reminders(false, [ReminderOverride("popup", ReminderMinutes)])))
  }

  /** How an item's event is made: the event, or the error that stops the sync. */
  type Builder = Item -> Result<Event, DateError>

  /** The sync's builder: `createWasteEvent` for the item's summary and date. */
  function Build(item: Item): Result<Event, DateError> {
    WasteEvent(item.summary, item.date)
  }

  /** A built event is found by the existence check for the item it was built for. */
  ghost predicate FindsWhatItBuilds(build: Builder) {
    forall x :: build(x).Ok? ==> Matches(build(x).value, x.summary, x.date)
  }

  /** The sync's events carry the item's summary and start on its date. */
  lemma BuildIsFound()
    ensures FindsWhatItBuilds(Build)
  {
    forall x | Build(x).Ok?
      ensures Matches(Build(x).value, x.summary, x.date)
    {
      var e := WasteEvent(x.summary, x.date).value;
      assert e.summary == Some(x.summary) && e.start == AllDay(x.date);
    }
  }

  /** The results, events created and error (if any) of syncing a run of items. */
  datatype SyncRun = SyncRun(results: seq<SyncResult>, created: seq<Event>, failure: Option<DateError>)

  /**
   * `syncEvent` against the stored events `events`: `skipped` when a match is
   * stored, otherwise `added` with one create, or the builder's error.
   */
  function Step(events: seq<Event>, item: Item, build: Builder): SyncRun
  {
    if AnyMatch(events, item.summary, item.date) then
      SyncRun([SyncResult(item.summary, item.date, Skipped)], [], None)
    else
      match build(item)
      case Ok(e) => SyncRun([SyncResult(item.summary, item.date, Added)], [e], None)
      case Err(err) => SyncRun([], [], Some(err))
  }

  /**
   * What one step decides: exactly one result unless the builder failed; the
   * result is for this item; `skipped` exactly when a match is stored; one
   * event created, the one built, exactly when `added`; a failure only when
   * nothing matched and the builder failed.
   */
  lemma StepDecides(events: seq<Event>, item: Item, build: Builder)
    ensures var s := Step(events, item, build);
      && (s.failure.None? <==> |s.results| == 1)
      && |s.created| <= |s.results| <= 1
      && (|s.results| == 1 ==> s.results[0].typeLabel == item.summary && s.results[0].date == item.date)
      && (|s.results| == 1 ==> (s.results[0].status == Skipped <==> AnyMatch(events, item.summary, item.date)))
      && (|s.created| == 1 <==> (|s.results| == 1 && s.results[0].status == Added))
      && (|s.created| == 1 ==> build(item) == Ok(s.created[0]))
      && (s.failure.Some? ==> !AnyMatch(events, item.summary, item.date) && build(item) == Err(s.failure.value))
  {
  }

  /**
   * `syncWasteCalendar` over a plan: each item checked against the events
   * stored so far, including those this run created; the first error stops
   * the run.
   */
  function Run(events: seq<Event>, plan: seq<Item>, build: Builder): SyncRun
    decreases |plan|
  {
    if plan == [] then SyncRun([], [], None)
    else
      var prev := Run(events, plan[..|plan| - 1], build);
      if prev.failure.Some? then prev
      else
        var step := Step(events + prev.created, plan[|plan| - 1], build);
        SyncRun(prev.results + step.results, prev.created + step.created, step.failure)
  }

  /** The run over the first `n + 1` items: the run over the first `n`, then one step if it did not fail. */
  lemma RunNext(events: seq<Event>, plan: seq<Item>, n: nat, build: Builder)
    requires n < |plan|
    ensures var prev := Run(events, plan[..n], build);
      var step := Step(events + prev.created, plan[n], build);
      Run(events, plan[..n + 1], build) ==
        if prev.failure.Some? then prev
        else SyncRun(prev.results + step.results, prev.created + step.created, step.failure)
  {
    assert plan[..n + 1][..n] == plan[..n];
  }

  // ---------------------------------------------------------------------------
  // What a run promises, for any builder.

  /**
   * One result per item, in plan order, with the item's label and date; a run
   * that does not fail has exactly as many results as items.
   */
  lemma {:induction false} RunFollowsPlan(events: seq<Event>, plan: seq<Item>, build: Builder)
    ensures |Run(events, plan, build).results| <= |plan|
    ensures Run(events, plan, build).failure.None? <==> |Run(events, plan, build).results| == |plan|
    ensures forall i :: 0 <= i < |Run(events, plan, build).results| ==>
      && Run(events, plan, build).results[i].typeLabel == plan[i].summary
      && Run(events, plan, build).results[i].date == plan[i].date
    decreases |plan|
  {
    if plan != [] {
      var p := plan[..|plan| - 1];
      RunFollowsPlan(events, p, build);
      var prev := Run(events, p, build);
      if prev.failure.None? {
        var step := Step(events + prev.created, plan[|plan| - 1], build);
        var results := prev.results + step.results;
        forall i | 0 <= i < |results|
          ensures results[i].typeLabel == plan[i].summary && results[i].date == plan[i].date
        {
          if i < |prev.results| {
            assert results[i] == prev.results[i] && p[i] == plan[i];
          } else {
            assert results[i] == step.results[0];
          }
        }
      }
    }
  }

  /** The items whose result is `added`, in order. */
  function AddedItems(results: seq<SyncResult>): seq<Item> {
    if results == [] then []
    else
      var r := results[|results| - 1];
      AddedItems(results[..|results| - 1]) + (if r.status == Added then [Item(r.typeLabel, r.date)] else [])
  }

  /**
   * A create happens exactly for the `added` results: one event per added
   * item, in order, and it is what the builder makes for that item.
   */
  lemma {:induction false} RunCreatesExactlyAdded(events: seq<Event>, plan: seq<Item>, build: Builder)
    ensures |Run(events, plan, build).created| == |AddedItems(Run(events, plan, build).results)|
    ensures forall k :: 0 <= k < |Run(events, plan, build).created| ==>
      build(AddedItems(Run(events, plan, build).results)[k]) == Ok(Run(events, plan, build).created[k])
    decreases |plan|
  {
    if plan != [] {
      var p := plan[..|plan| - 1];
      var x := plan[|plan| - 1];
      RunCreatesExactlyAdded(events, p, build);
      var prev := Run(events, p, build);
      if prev.failure.None? {
        StepDecides(events + prev.created, x, build);
        AddedAfterStep(prev.results, prev.created, Step(events + prev.created, x, build), x, build);
      }
    }
  }

  /** One more step keeps the created events paired with the `added` items. */
  lemma AddedAfterStep(results: seq<SyncResult>, created: seq<Event>, step: SyncRun, x: Item, build: Builder)
    requires |created| == |AddedItems(results)|
    requires forall k :: 0 <= k < |created| ==> build(AddedItems(results)[k]) == Ok(created[k])
    requires |step.created| <= |step.results| <= 1
    requires |step.results| == 1 ==> step.results[0].typeLabel == x.summary && step.results[0].date == x.date
    requires |step.created| == 1 <==> (|step.results| == 1 && step.results[0].status == Added)
    requires |step.created| == 1 ==> build(x) == Ok(step.created[0])
    ensures |created + step.created| == |AddedItems(results + step.results)|
    ensures forall k :: 0 <= k < |created + step.created| ==>
      build(AddedItems(results + step.results)[k]) == Ok((created + step.created)[k])
  {
    var all := results + step.results;
    var made := created + step.created;
    if |step.results| == 1 {
      var r := step.results[0];
      assert all[..|all| - 1] == results;
      var added := AddedItems(all);
      assert added == AddedItems(results) + (if r.status == Added then [Item(r.typeLabel, r.date)] else []);
      forall k | 0 <= k < |made|
        ensures build(added[k]) == Ok(made[k])
      {
        if k < |created| {
          assert made[k] == created[k] && added[k] == AddedItems(results)[k];
        } else {
          assert made[k] == step.created[0] && added[k] == x;
        }
      }
    } else {
      assert all == results && made == created;
    }
  }

  /**
   * Read before write: an item is `skipped` exactly when a matching event is
   * stored at the moment it is checked (stored before the run, or created by
   * an earlier item of the same run).
   */
  lemma {:induction false} RunDecidesByLookup(events: seq<Event>, plan: seq<Item>, build: Builder, i: nat)
    requires i < |Run(events, plan, build).results|
    ensures i < |plan|
    ensures Run(events, plan, build).results[i].status == Skipped
        <==> AnyMatch(events + Run(events, plan[..i], build).created, plan[i].summary, plan[i].date)
    decreases |plan|
  {
    RunFollowsPlan(events, plan, build);
    var p := plan[..|plan| - 1];
    var prev := Run(events, p, build);
    RunFollowsPlan(events, p, build);
    if i < |prev.results| {
      RunDecidesByLookup(events, p, build, i);
      assert p[..i] == plan[..i];
      assert Run(events, plan, build).results[i] == prev.results[i];
    } else {
      assert p == plan[..i];
    }
  }

  /** The error that stops a run: the first item that is not stored and that the builder rejects. */
  lemma {:induction false} RunFailureCause(events: seq<Event>, plan: seq<Item>, build: Builder)
    requires Run(events, plan, build).failure.Some?
    ensures |Run(events, plan, build).results| < |plan|
    ensures var item := plan[|Run(events, plan, build).results|];
      && !AnyMatch(events + Run(events, plan, build).created, item.summary, item.date)
      && build(item) == Err(Run(events, plan, build).failure.value)
    decreases |plan|
  {
    var p := plan[..|plan| - 1];
    var prev := Run(events, p, build);
    RunFollowsPlan(events, p, build);
    if prev.failure.Some? {
      RunFailureCause(events, p, build);
      assert p[|prev.results|] == plan[|prev.results|];
    } else {
      var step := Step(events + prev.created, plan[|plan| - 1], build);
      assert step.created == [];
      assert Run(events, plan, build).created == prev.created;
    }
  }

  /** Running a prefix of the plan gives a prefix of the run, or the whole run if the prefix failed. */
  lemma {:induction false} RunPrefix(events: seq<Event>, plan: seq<Item>, build: Builder, k: nat)
    requires k <= |plan|
    ensures var pre := Run(events, plan[..k], build);
      if pre.failure.None? then
        pre.results <= Run(events, plan, build).results && pre.created <= Run(events, plan, build).created
      else
        Run(events, plan, build) == pre
    decreases |plan|
  {
    if k == |plan| {
      assert plan[..k] == plan;
    } else {
      var p := plan[..|plan| - 1];
      assert p[..k] == plan[..k];
      RunPrefix(events, p, build, k);
    }
  }

  /**
   * Syncing `p` then `q` is one run over `p + q`: the second part is checked
   * against the events stored before plus those the first part created.
   */
  lemma {:induction false} RunAppend(events: seq<Event>, p: seq<Item>, q: seq<Item>, build: Builder)
    requires Run(events, p, build).failure.None?
    ensures var first := Run(events, p, build);
      var second := Run(events + first.created, q, build);
      Run(events, p + q, build)
        == SyncRun(first.results + second.results, first.created + second.created, second.failure)
    decreases |q|
  {
    var first := Run(events, p, build);
    if q == [] {
      assert p + q == p;
      assert first.results + [] == first.results && first.created + [] == first.created;
    } else {
      var init := q[..|q| - 1];
      RunAppend(events, p, init, build);
      var pq := p + q;
      assert pq[..|pq| - 1] == p + init && pq[|pq| - 1] == q[|q| - 1];
      var second := Run(events + first.created, init, build);
      if second.failure.None? {
        RunAppendStep(events, first, second, Step(events + first.created + second.created, q[|q| - 1], build));
      }
    }
  }

  /**
   * The regrouping `RunAppend` needs after one more step, kept out of its
   * proof context as a separate lemma so that the solver does not search
   * concatenations of runs it has unfolded.
   */
  lemma RunAppendStep(events: seq<Event>, first: SyncRun, second: SyncRun, step: SyncRun)
    ensures events + (first.created + second.created) == events + first.created + second.created
    ensures first.results + second.results + step.results == first.results + (second.results + step.results)
    ensures first.created + second.created + step.created == first.created + (second.created + step.created)
  {
  }

  /** Once stored, always stored: adding events never hides a match. */
  lemma AnyMatchGrows(a: seq<Event>, b: seq<Event>, summary: string, date: string)
    requires a <= b && AnyMatch(a, summary, date)
    ensures AnyMatch(b, summary, date)
  {
    var i :| 0 <= i < |a| && Matches(a[i], summary, date);
    assert b[i] == a[i];
  }

  /** After item `i` has been synced, a matching event is stored. */
  lemma ItemStoredAfterStep(events: seq<Event>, plan: seq<Item>, build: Builder, i: nat)
    requires FindsWhatItBuilds(build)
    requires i < |Run(events, plan, build).results|
    ensures i < |plan| && Run(events, plan[..i + 1], build).failure.None?
    ensures AnyMatch(events + Run(events, plan[..i + 1], build).created, plan[i].summary, plan[i].date)
  {
    RunFollowsPlan(events, plan, build);
    RunPrefix(events, plan, build, i + 1);
    RunFollowsPlan(events, plan[..i + 1], build);
    RunNext(events, plan, i, build);
    var prev := Run(events, plan[..i], build);
    RunFollowsPlan(events, plan[..i], build);
    var x := plan[i];
    var step := Step(events + prev.created, x, build);
    var all := events + Run(events, plan[..i + 1], build).created;
    if AnyMatch(events + prev.created, x.summary, x.date) {
      AnyMatchGrows(events + prev.created, all, x.summary, x.date);
    } else {
      assert all[|all| - 1] == step.created[0];
    }
  }

  /** A date repeated within one run is skipped on its later occurrence. */
  lemma RepeatedItemSkipped(events: seq<Event>, plan: seq<Item>, build: Builder, i: nat, j: nat)
    requires FindsWhatItBuilds(build)
    requires i < j < |Run(events, plan, build).results| && j < |plan|
    requires plan[i] == plan[j]
    ensures Run(events, plan, build).results[j].status == Skipped
  {
    ItemStoredAfterStep(events, plan, build, i);
    var q := plan[..j];
    RunPrefix(events, q, build, i + 1);
    assert q[..i + 1] == plan[..i + 1];
    AnyMatchGrows(events + Run(events, plan[..i + 1], build).created, events + Run(events, q, build).created,
                  plan[i].summary, plan[i].date);
    RunDecidesByLookup(events, plan, build, j);
  }

  /** After a run that did not fail, every item it visited has a matching stored event. */
  lemma RunLeavesEveryItemStored(events: seq<Event>, plan: seq<Item>, build: Builder, i: nat)
    requires FindsWhatItBuilds(build)
    requires Run(events, plan, build).failure.None? && i < |plan|
    ensures AnyMatch(events + Run(events, plan, build).created, plan[i].summary, plan[i].date)
  {
    RunFollowsPlan(events, plan, build);
    ItemStoredAfterStep(events, plan, build, i);
    RunPrefix(events, plan, build, i + 1);
    AnyMatchGrows(events + Run(events, plan[..i + 1], build).created, events + Run(events, plan, build).created,
                  plan[i].summary, plan[i].date);
  }

  function AllSkipped(plan: seq<Item>): (results: seq<SyncResult>)
    ensures |results| == |plan|
    ensures forall i :: 0 <= i < |plan| ==> results[i] == SyncResult(plan[i].summary, plan[i].date, Skipped)
  {
    seq(|plan|, i requires 0 <= i < |plan| => SyncResult(plan[i].summary, plan[i].date, Skipped))
  }

  /** When every item already has a matching event, a run skips everything and creates nothing. */
  lemma {:induction false} RunOverStoredItems(events: seq<Event>, plan: seq<Item>, build: Builder)
    requires forall i :: 0 <= i < |plan| ==> AnyMatch(events, plan[i].summary, plan[i].date)
    ensures Run(events, plan, build) == SyncRun(AllSkipped(plan), [], None)
    decreases |plan|
  {
    if plan != [] {
      var p := plan[..|plan| - 1];
      var x := plan[|plan| - 1];
      RunOverStoredItems(events, p, build);
      assert events + [] == events;
      assert AllSkipped(p) + [SyncResult(x.summary, x.date, Skipped)] == AllSkipped(plan);
    }
  }

  /** Idempotence: running the same plan again over the updated events only skips. */
  lemma SecondRunSkipsEverything(events: seq<Event>, plan: seq<Item>, build: Builder)
    requires FindsWhatItBuilds(build)
    requires Run(events, plan, build).failure.None?
    ensures Run(events + Run(events, plan, build).created, plan, build) == SyncRun(AllSkipped(plan), [], None)
  {
    var after := events + Run(events, plan, build).created;
    forall i | 0 <= i < |plan|
      ensures AnyMatch(after, plan[i].summary, plan[i].date)
    {
      RunLeavesEveryItemStored(events, plan, build, i);
    }
    RunOverStoredItems(after, plan, build);
  }

  // ---------------------------------------------------------------------------
  // What a sync promises.

  /** A sync stops only at a string that is not a real date, with that string's error. */
  lemma SyncFailsOnlyOnInvalidDate(events: seq<Event>, plan: seq<Item>)
    requires Run(events, plan, Build).failure.Some?
    ensures |Run(events, plan, Build).results| < |plan|
    ensures var date := plan[|Run(events, plan, Build).results|].date;
      !ValidateDate(date) && Run(events, plan, Build).failure == Some(InvalidDate(date))
  {
    RunFailureCause(events, plan, Build);
  }

  /** A sync over real calendar dates never fails and reports every item. */
  lemma SyncSucceedsOnRealDates(events: seq<Event>, plan: seq<Item>)
    requires forall i :: 0 <= i < |plan| ==> ValidateDate(plan[i].date)
    ensures Run(events, plan, Build).failure.None?
    ensures |Run(events, plan, Build).results| == |plan|
  {
    if Run(events, plan, Build).failure.Some? {
      SyncFailsOnlyOnInvalidDate(events, plan);
    }
    RunFollowsPlan(events, plan, Build);
  }

  /** Each event a sync creates is the all-day, six-hour-reminder event of an added item. */
  lemma SyncCreatesWasteEvents(events: seq<Event>, plan: seq<Item>, k: nat)
    requires k < |Run(events, plan, Build).created|
    ensures k < |AddedItems(Run(events, plan, Build).results)|
    ensures var item := AddedItems(Run(events, plan, Build).results)[k];
      var e := Run(events, plan, Build).created[k];
      && ValidateDate(item.date)
      && e.summary == Some(item.summary)
      && e.start == AllDay(item.date) && e.end == AllDay(GetNextDay(item.date).value)
      && e.reminders == Reminders(false, [ReminderOverride("popup", 360)])
  {
    RunCreatesExactlyAdded(events, plan, Build);
  }

  /** Syncing a calendar a second time, after a first sync that succeeded, adds nothing. */
  lemma SyncIsIdempotent(events: seq<Event>, cal: WasteCalendar)
    requires Run(events, Plan(cal), Build).failure.None?
    ensures Run(events + Run(events, Plan(cal), Build).created, Plan(cal), Build)
         == SyncRun(AllSkipped(Plan(cal)), [], None)
  {
    BuildIsFound();
    SecondRunSkipsEverything(events, Plan(cal), Build);
  }

  /** The event built for one plastic-garbage date: all day, ending the next day, with the popup reminder. */
  lemma BuildExample()
    ensures Build(Item("Plastic Garbage", "2024-06-01")) == Ok(Event(Some("Plastic Garbage"),
      AllDay("2024-06-01"), AllDay("2024-06-02"), Reminders(false, [ReminderOverride("popup", 360)])))
  {
    GetNextDayInZoneExample();
    assert FormatDateForCalendar("2024-06-01") == Ok(DateRange("2024-06-01", "2024-06-02"));
  }

  /** Syncing one new date into an empty calendar adds its event. */
  lemma FirstSyncOfOneDate()
    ensures Run([], [Item("Plastic Garbage", "2024-06-01")], Build) == SyncRun(
      [SyncResult("Plastic Garbage", "2024-06-01", Added)],
      [Event(Some("Plastic Garbage"), AllDay("2024-06-01"), AllDay("2024-06-02"),
             Reminders(false, [ReminderOverride("popup", 360)]))],
      None)
  {
    var x := Item("Plastic Garbage", "2024-06-01");
    var e := Event(Some("Plastic Garbage"), AllDay("2024-06-01"), AllDay("2024-06-02"),
                   Reminders(false, [ReminderOverride("popup", 360)]));
    BuildExample();
    assert Step([], x, Build) == SyncRun([SyncResult(x.summary, x.date, Added)], [e], None);
    RunOfOne([], x, Build);
  }

  /** A run over one item is that item's step. */
  lemma RunOfOne(events: seq<Event>, x: Item, build: Builder)
    ensures Run(events, [x], build) == Step(events, x, build)
  {
    assert [x][..0] == [] && events + [] == events;
    assert [] + Step(events, x, build).results == Step(events, x, build).results;
    assert [] + Step(events, x, build).created == Step(events, x, build).created;
  }

  /**
   * One turn of a sync loop: with the run over the first `n` items known,
   * syncing item `n` extends it by one step, and a step that fails is where
   * the whole run stops.
   */
  lemma RunStep(events: seq<Event>, plan: seq<Item>, n: nat, build: Builder,
                results: seq<SyncResult>, made: seq<Event>)
    requires n < |plan| && Run(events, plan[..n], build) == SyncRun(results, made, None)
    ensures var step := Step(events + made, plan[n], build);
      && Run(events, plan[..n + 1], build) == SyncRun(results + step.results, made + step.created, step.failure)
      && (step.failure.Some? ==> Run(events, plan, build) == SyncRun(results, made, step.failure))
  {
    RunNext(events, plan, n, build);
    RunPrefix(events, plan, build, n + 1);
    var step := Step(events + made, plan[n], build);
    if step.failure.Some? {
      assert step.results == [] && step.created == [];
      assert results + [] == results && made + [] == made;
    }
  }

  /**
   * One turn of the sync's outer loop: the run over the categories before
   * `ci` followed by the run over category `ci`'s items on the updated
   * calendar; a failure there is where the whole sync stops.
   */
  lemma CategoryStep(cal: WasteCalendar, ci: nat, before: seq<Event>, results: seq<SyncResult>, made: seq<Event>)
    requires ci < |Categories|
    requires Run(before, Visits(cal, Categories[..ci]), Build) == SyncRun(results, made, None)
    ensures var c := Categories[ci];
      var rest := Run(before + made, Pairs(Label(c), Schemas.Dates(cal, c)), Build);
      && Run(before, Visits(cal, Categories[..ci + 1]), Build)
         == SyncRun(results + rest.results, made + rest.created, rest.failure)
      && (rest.failure.Some? ==> Run(before, Plan(cal), Build)
                                 == SyncRun(results + rest.results, made + rest.created, rest.failure))
      && (ci + 1 == |Categories| ==> Visits(cal, Categories[..ci + 1]) == Plan(cal))
  {
    var c := Categories[ci];
    VisitsSnoc(cal, Categories, ci);
    RunAppend(before, Visits(cal, Categories[..ci]), Pairs(Label(c), Schemas.Dates(cal, c)), Build);
    var done := Visits(cal, Categories[..ci + 1]);
    VisitsPrefix(cal, Categories, ci + 1);
    assert Plan(cal)[..|done|] == done;
    RunPrefix(before, Plan(cal), Build, |done|);
    assert Categories[..|Categories|] == Categories;
  }

  /** Regrouping the stored events around a loop turn, as a lemma for the same reason as `RunAppendStep`. */
  lemma AppendAssoc(a: seq<Event>, b: seq<Event>, c: seq<Event>)
    ensures (a + b) + c == a + (b + c)
  {
  }

  // ---------------------------------------------------------------------------
  // The class.

  class EventManager {
    const client: CalendarClient

    constructor (client: CalendarClient)
      ensures this.client == client
    {
      this.client := client;
    }

    /** `createWasteEvent`: build the all-day event and insert it; building it may throw. */
    method CreateWasteEvent(summary: string, date: string) returns (failure: Option<DateError>)
      modifies client
      ensures match WasteEvent(summary, date)
        case Ok(e) =>
          failure.None? && client.events == old(client.events) + [e] && client.created == old(client.created) + [e]
        case Err(err) =>
          failure == Some(err) && client.events == old(client.events) && client.created == old(client.created)
    {
      match WasteEvent(summary, date)
      case Err(err) =>
        failure := Some(err);
      case Ok(e) =>
        var _ := client.CreateEvent(e);
        failure := None;
    }

    /** `syncEvent`: check, then create if missing; agrees with `Step`. */
    method SyncEvent(summary: string, date: string) returns (r: Result<SyncResult, DateError>)
      modifies client
      ensures var step := Step(old(client.events), Item(summary, date), Build);
        && client.events == old(client.events) + step.created
        && client.created == old(client.created) + step.created
        && r == if step.failure.Some? then Err(step.failure.value) else Ok(step.results[0])
      ensures r.Err? ==> client.events == old(client.events) && client.created == old(client.created)
    {
      var stored := client.EventExists(summary, date);
      if stored {
        return Ok(SyncResult(summary, date, Skipped));
      }
      var failure := CreateWasteEvent(summary, date);
      if failure.Some? {
        return Err(failure.value);
      }
      r := Ok(SyncResult(summary, date, Added));
    }

    /**
     * The inner loop of `syncWasteCalendar`: one category's dates in input
     * order under one summary, as `Run` over those items; the results so far
     * and the error, if one stopped it.
     */
    method SyncDates(summary: string, dates: seq<string>) returns (results: seq<SyncResult>, failure: Option<DateError>)
      modifies client
      ensures var run := Run(old(client.events), Pairs(summary, dates), Build);
        && client.events == old(client.events) + run.created
        && client.created == old(client.created) + run.created
        && results == run.results && failure == run.failure
    {
      ghost var start := client.events;
      ghost var logged := client.created;
      ghost var plan := Pairs(summary, dates);
      ghost var made: seq<Event> := [];
      results := [];
      var j := 0;
      assert plan[..0] == [];
      while j < |dates|
        invariant 0 <= j <= |dates|
        invariant Run(start, plan[..j], Build) == SyncRun(results, made, None)
        invariant client.events == start + made && client.created == logged + made
      {
        RunStep(start, plan, j, Build, results, made);
        ghost var step := Step(start + made, plan[j], Build);
        var result := SyncEvent(summary, dates[j]);
        if result.Err? {
          return results, Some(result.error);
        }
        AppendAssoc(start, made, step.created);
        AppendAssoc(logged, made, step.created);
        assert step.results == [result.value];
        results := results + [result.value];
        made := made + step.created;
        j := j + 1;
      }
      assert plan[..j] == plan;
      failure := None;
    }

    /**
     * `syncWasteCalendar`: the results of `Run` over the calendar's plan, or
     * its error; the calendar keeps whatever the run created before it
     * stopped.
     */
    method SyncWasteCalendar(cal: WasteCalendar) returns (r: Result<seq<SyncResult>, DateError>)
      modifies client
      ensures var run := Run(old(client.events), Plan(cal), Build);
        && client.events == old(client.events) + run.created
        && client.created == old(client.created) + run.created
        && r == if run.failure.Some? then Err(run.failure.value) else Ok(run.results)
    {
      ghost var before := client.events;
      ghost var loggedBefore := client.created;
      ghost var made: seq<Event> := [];
      var results: seq<SyncResult> := [];
      var ci := 0;
      assert Categories[..0] == [];
      while ci < |Categories|
        invariant 0 <= ci <= |Categories|
        invariant Run(before, Visits(cal, Categories[..ci]), Build) == SyncRun(results, made, None)
        invariant ci == |Categories| ==> Visits(cal, Categories[..ci]) == Plan(cal)
        invariant client.events == before + made && client.created == loggedBefore + made
      {
        var category := Categories[ci];
        var eventName := Label(category);
        var dates := Schemas.Dates(cal, category);
        CategoryStep(cal, ci, before, results, made);
        ghost var rest := Run(before + made, Pairs(eventName, dates), Build);
        var categoryResults, failure := SyncDates(eventName, dates);
        AppendAssoc(before, made, rest.created);
        AppendAssoc(loggedBefore, made, rest.created);
        results := results + categoryResults;
        made := made + rest.created;
        if failure.Some? {
          return Err(failure.value);
        }
        ci := ci + 1;
      }
      r := Ok(results);
    }
  }

  /** A client of the class: one new date is added, and a second sync skips it. */
  method SingleNewDateScenario() {
    var client := new CalendarClient([]);
    var manager := new EventManager(client);
    var cal := WasteCalendar(["2024-06-01"], [], [], [], []);
    var x := Item("Plastic Garbage", "2024-06-01");
    PlanOrder(cal);
    LabelTable();
    assert Plan(cal) == [x];
    FirstSyncOfOneDate();
    var first := manager.SyncWasteCalendar(cal);
    assert first == Ok([SyncResult("Plastic Garbage", "2024-06-01", Added)]);
    SyncIsIdempotent([], cal);
    var second := manager.SyncWasteCalendar(cal);
    assert second == Ok(AllSkipped([x]));
  }
}
