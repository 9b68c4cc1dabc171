/**
 * The calendar side of src/calendar/client.ts. The existence check is a query
 * for one day's events filtered by text, followed by a pure match over what
 * comes back; the calendar service itself is a class holding the stored
 * events and a log of every insert.
 */
module Calendar {
  import opened Wrappers

  /**
   * When an event starts or ends: a whole date for all-day events, an
   * RFC 3339 date-time for timed ones, or nothing at all.
   */
  datatype EventTime = AllDay(date: string) | Timed(dateTime: string) | Unset

  datatype ReminderOverride = ReminderOverride(delivery: string, minutes: int)

  datatype Reminders = Reminders(useDefault: bool, overrides: seq<ReminderOverride>)

  /** A calendar event, as inserted and as listed. */
  datatype Event = Event(summary: Option<string>, start: EventTime, end: EventTime, reminders: Reminders)

  /** The parameters of an `events.list` call that the model keeps. */
  datatype ListQuery = ListQuery(timeMin: string, timeMax: string, q: string)

  /** The query `eventExists` sends: the whole UTC day of `date`, text-filtered by the summary. */
  function QueryWindow(summary: string, date: string): (query: ListQuery)
    ensures date <= query.timeMin && query.timeMin[|date|..] == "T00:00:00Z"
    ensures date <= query.timeMax && query.timeMax[|date|..] == "T23:59:59Z"
    ensures query.q == summary
  {
    ListQuery(date + "T00:00:00Z", date + "T23:59:59Z", summary)
  }

  /** An all-day start on exactly `date`, or a timed start whose text begins with `date`. */
  predicate StartsOn(start: EventTime, date: string) {
    match start
    case AllDay(d) => d == date
    case Timed(dt) => date <= dt
    case Unset => false
  }

  /** The callback of `some` in `eventExists`: exact summary and a start on the date. */
  predicate Matches(e: Event, summary: string, date: string) {
    e.summary == Some(summary) && StartsOn(e.start, date)
  }

  /** `items.some(...)` over a returned list. */
  function AnyMatch(items: seq<Event>, summary: string, date: string): (b: bool)
    ensures b <==> exists i :: 0 <= i < |items| && Matches(items[i], summary, date)
  {
    if items == [] then false
    else if Matches(items[0], summary, date) then true
    else
      var b := AnyMatch(items[1..], summary, date);
      assert forall i :: 1 <= i < |items| ==> items[i] == items[1..][i - 1];
      b
  }

  /** `items?.some(...) || false`: a missing item list means no match. */
  function FoundIn(items: Option<seq<Event>>, summary: string, date: string): (b: bool)
    ensures b <==> items.Some? && exists e :: e in items.value && Matches(e, summary, date)
  {
    match items
    case None => false
    case Some(es) => AnyMatch(es, summary, date)
  }

  /** `q` occurs somewhere in `text`. */
  predicate ContainsText(text: string, q: string)
    decreases |text|
  {
    q <= text || (text != [] && ContainsText(text[1..], q))
  }

  /** The service's free-text filter, taken here as a case-sensitive substring test on the summary. */
  predicate TextMatches(e: Event, q: string) {
    e.summary.Some? && ContainsText(e.summary.value, q)
  }

  /** A match is never filtered out by the text query that carries its own summary. */
  lemma MatchPassesTextFilter(e: Event, summary: string, date: string)
    requires Matches(e, summary, date)
    ensures TextMatches(e, summary)
  {
  }

  /** The summary must be equal, not merely contain or resemble the query. */
  lemma SummaryMustBeExact(date: string)
    ensures !Matches(Event(Some("plastic garbage"), AllDay(date), Unset, Reminders(true, [])), "Plastic Garbage", date)
    ensures !Matches(Event(Some("Plastic Garbage bin"), AllDay(date), Unset, Reminders(true, [])), "Plastic Garbage", date)
    ensures !Matches(Event(None, AllDay(date), Unset, Reminders(true, [])), "Plastic Garbage", date)
  {
    assert "Plastic Garbage" != "plastic garbage" by {
      assert "Plastic Garbage"[0] != "plastic garbage"[0];
    }
    assert |"Plastic Garbage"| != |"Plastic Garbage bin"|;
  }

  /** Both start representations are recognised; a start on another day is not. */
  lemma StartExamples()
    ensures StartsOn(AllDay("2024-06-01"), "2024-06-01")
    ensures StartsOn(Timed("2024-06-01T07:00:00+02:00"), "2024-06-01")
    ensures !StartsOn(AllDay("2024-06-02"), "2024-06-01")
    ensures !StartsOn(Timed("2024-06-02T07:00:00+02:00"), "2024-06-01")
    ensures !StartsOn(Unset, "2024-06-01")
  {
    assert "2024-06-02"[9] != "2024-06-01"[9];
    assert "2024-06-02T07:00:00+02:00"[9] != "2024-06-01"[9];
  }

  /**
   * The calendar behind `CalendarClient`: the events it stores and, for the
   * model's sake, the log of every `createEvent` call in order.
   */
  class CalendarClient {
    var events: seq<Event>
    var created: seq<Event>

    constructor (initial: seq<Event>)
      ensures events == initial && created == []
    {
      events := initial;
      created := [];
    }

    /**
     * `calendar.events.list`: the stored events that pass the text filter,
     * in stored order. The time window is not applied; the existence check
     * relies only on what the contract promises.
     */
    method List(query: ListQuery) returns (items: Option<seq<Event>>)
      ensures items.Some?
      ensures forall e :: e in items.value ==> e in events && TextMatches(e, query.q)
      ensures forall e :: e in events && TextMatches(e, query.q) ==> e in items.value
    {
      var found: seq<Event> := [];
      var i := 0;
      while i < |events|
        invariant 0 <= i <= |events|
        invariant forall e :: e in found ==> e in events[..i] && TextMatches(e, query.q)
        invariant forall j :: 0 <= j < i && TextMatches(events[j], query.q) ==> events[j] in found
      {
        if TextMatches(events[i], query.q) {
          found := found + [events[i]];
        }
        i := i + 1;
      }
      assert events[..i] == events;
      items := Some(found);
    }

    /** `eventExists`: whether some stored event has this summary and starts on this date. */
    method EventExists(summary: string, date: string) returns (found: bool)
      ensures found <==> AnyMatch(events, summary, date)
    {
      var items := List(QueryWindow(summary, date));
      found := FoundIn(items, summary, date);
      forall e | e in events && Matches(e, summary, date)
        ensures e in items.value
      {
        MatchPassesTextFilter(e, summary, date);
      }
    }

    /** `createEvent`: the service stores the event and hands it back. */
    method CreateEvent(event: Event) returns (stored: Event)
      modifies this
      ensures events == old(events) + [event]
      ensures created == old(created) + [event]
      ensures stored == event
    {
      events := events + [event];
      created := created + [event];
      stored := event;
    }
  }
}
