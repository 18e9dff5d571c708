/**
 * The dashboard calendar (frontend/src/App.jsx): the event filter chosen
 * by the filter buttons and the grouping of the kept events by day of the
 * month. Object keys in JavaScript are strings; the days are small whole
 * numbers, whose string forms are distinct, so the grouping is modelled as
 * a map keyed by the day itself.
 */
module Dashboard {
  import opened Text

  /** A calendar event; `kind` is the source's `type`. */
  datatype Event = Event(id: int, date: int, title: string, kind: string, status: string)

  /** The statuses the "urgent" filter keeps. */
  predicate IsAlert(status: string) {
    status == "urgent" || status == "critical" || status == "warning"
  }

  /** The filter predicate: "all", "urgent", or a substring of the event's type. */
  predicate Keeps(filter: string, e: Event) {
    if filter == "all" then true
    else if filter == "urgent" then IsAlert(e.status)
    else Contains(e.kind, filter)
  }

  /** `rawEvents.filter(...)`. */
  function FilterEvents(events: seq<Event>, filter: string): (r: seq<Event>)
    ensures |r| <= |events|
    ensures forall e :: e in r ==> e in events && Keeps(filter, e)
    decreases |events|
  {
    if events == [] then []
    else
      var init := FilterEvents(events[..|events| - 1], filter);
      var last := events[|events| - 1];
      if Keeps(filter, last) then init + [last] else init
  }

  /** Every kept event comes from the list, and every event of the list the filter accepts is kept. */
  lemma {:induction false} FilterExact(events: seq<Event>, filter: string)
    ensures forall e :: e in FilterEvents(events, filter) <==> e in events && Keeps(filter, e)
    decreases |events|
  {
    if events != [] {
      var init := events[..|events| - 1];
      FilterExact(init, filter);
      assert events == init + [events[|events| - 1]];
    }
  }

  /** "all" keeps every event, in order. */
  lemma {:induction false} FilterAllKeepsEverything(events: seq<Event>)
    ensures FilterEvents(events, "all") == events
    decreases |events|
  {
    if events != [] {
      FilterAllKeepsEverything(events[..|events| - 1]);
      assert events == events[..|events| - 1] + [events[|events| - 1]];
    }
  }

  /** `a` is `b` with some elements left out, the rest in their order. */
  predicate Subseq(a: seq<Event>, b: seq<Event>)
    decreases |b|
  {
    if a == [] then true
    else if b == [] then false
    else if a[|a| - 1] == b[|b| - 1] then Subseq(a[..|a| - 1], b[..|b| - 1])
    else Subseq(a, b[..|b| - 1])
  }

  /** The filtered events keep their original order. */
  lemma {:induction false} FilterIsSubseq(events: seq<Event>, filter: string)
    ensures Subseq(FilterEvents(events, filter), events)
    decreases |events|
  {
    if events != [] {
      var init := events[..|events| - 1];
      var last := events[|events| - 1];
      FilterIsSubseq(init, filter);
      var f := FilterEvents(init, filter);
      if Keeps(filter, last) {
        assert (f + [last])[..|f|] == f;
      } else if f != [] {
        SubseqDropLast(f, init, last);
      }
    }
  }

  /** A subsequence of `b` is one of `b + [x]` too. */
  lemma {:induction false} SubseqDropLast(a: seq<Event>, b: seq<Event>, x: Event)
    requires Subseq(a, b)
    ensures Subseq(a, b + [x])
    decreases |b|, 1
  {
    if a != [] && a[|a| - 1] == x {
      assert (b + [x])[..|b|] == b;
      SubseqPrefix(a, b);
    } else {
      assert (b + [x])[..|b|] == b;
    }
  }

  /** A non-empty subsequence of `b` without its last element is still a subsequence of `b`. */
  lemma {:induction false} SubseqPrefix(a: seq<Event>, b: seq<Event>)
    requires a != [] && Subseq(a, b)
    ensures Subseq(a[..|a| - 1], b)
    decreases |b|, 0
  {
    var init := a[..|a| - 1];
    if init != [] {
      if a[|a| - 1] == b[|b| - 1] {
        SubseqDropLast(init, b[..|b| - 1], b[|b| - 1]);
        assert b[..|b| - 1] + [b[|b| - 1]] == b;
      } else {
        SubseqPrefix(a, b[..|b| - 1]);
        SubseqDropLast(init, b[..|b| - 1], b[|b| - 1]);
        assert b[..|b| - 1] + [b[|b| - 1]] == b;
      }
    }
  }

  /** The events on day `d`, in list order: the reference for one calendar cell. */
  function OnDate(events: seq<Event>, d: int): (r: seq<Event>)
    ensures forall e :: e in r ==> e in events && e.date == d
    decreases |events|
  {
    if events == [] then []
    else
      var init := OnDate(events[..|events| - 1], d);
      var last := events[|events| - 1];
      if last.date == d then init + [last] else init
  }

  /** The days that have events. */
  function Dates(events: seq<Event>): set<int> {
    set e | e in events :: e.date
  }

  /** `filteredEvents.reduce(...)`: each event appended to the bucket of its day. */
  function GroupByDate(events: seq<Event>): map<int, seq<Event>>
    decreases |events|
  {
    if events == [] then map[]
    else
      var acc := GroupByDate(events[..|events| - 1]);
      var e := events[|events| - 1];
      acc[e.date := (if e.date in acc then acc[e.date] else []) + [e]]
  }

  /**
   * The buckets are exactly the days that have events, and each bucket
   * holds that day's events in list order, so every event sits in exactly
   * one bucket, its own day's.
   */
  lemma {:induction false} GroupByDateBuckets(events: seq<Event>)
    ensures GroupByDate(events).Keys == Dates(events)
    ensures forall d :: d in GroupByDate(events) ==> GroupByDate(events)[d] == OnDate(events, d)
    decreases |events|
  {
    if events != [] {
      var init := events[..|events| - 1];
      var e := events[|events| - 1];
      GroupByDateBuckets(init);
      assert events == init + [e];
      assert Dates(events) == Dates(init) + {e.date};
      forall d | d in GroupByDate(events)
        ensures GroupByDate(events)[d] == OnDate(events, d)
      {
        if d != e.date {
          assert d in GroupByDate(init);
        } else if d !in GroupByDate(init) {
          OnDateEmpty(init, d);
        }
      }
    }
  }

  /** No event on day `d` means an empty cell. */
  lemma {:induction false} OnDateEmpty(events: seq<Event>, d: int)
    requires d !in Dates(events)
    ensures OnDate(events, d) == []
    decreases |events|
  {
    if events != [] {
      var init := events[..|events| - 1];
      assert Dates(init) <= Dates(events);
      OnDateEmpty(init, d);
    }
  }

  /** An event is on day `d`'s list exactly when it is in the events and dated `d`. */
  lemma {:induction false} OnDateExact(events: seq<Event>, d: int)
    ensures forall e :: e in OnDate(events, d) <==> e in events && e.date == d
    decreases |events|
  {
    if events != [] {
      var init := events[..|events| - 1];
      OnDateExact(init, d);
      assert events == init + [events[|events| - 1]];
    }
  }

  /** Every event sits in the bucket of its own day and in no other. */
  lemma EventInOneBucket(events: seq<Event>, e: Event)
    requires e in events
    ensures e.date in GroupByDate(events) && e in GroupByDate(events)[e.date]
    ensures forall d :: d in GroupByDate(events) && e in GroupByDate(events)[d] ==> d == e.date
  {
    GroupByDateBuckets(events);
    OnDateExact(events, e.date);
    forall d | d in GroupByDate(events) && e in GroupByDate(events)[d]
      ensures d == e.date
    {
      OnDateExact(events, d);
    }
  }

  /** The calendar: the kept events grouped by day. */
  function Calendar(events: seq<Event>, filter: string): map<int, seq<Event>> {
    GroupByDate(FilterEvents(events, filter))
  }

  /** A calendar cell holds exactly the events of its day that the filter keeps, in list order. */
  lemma CalendarCell(events: seq<Event>, filter: string, d: int)
    ensures d in Calendar(events, filter) ==> Calendar(events, filter)[d] == OnDate(FilterEvents(events, filter), d)
    ensures d in Calendar(events, filter) <==> exists e :: e in events && Keeps(filter, e) && e.date == d
  {
    var f := FilterEvents(events, filter);
    GroupByDateBuckets(f);
    FilterExact(events, filter);
    if d in Dates(f) {
      var e :| e in f && e.date == d;
    }
  }
}
