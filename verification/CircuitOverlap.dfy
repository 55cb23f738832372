/**
 * The circuit breaker with arrivals and endings in any order: the trial is not alone,
 * and still the failures alone tell which calls are refused.
 */
module CircuitOverlap {
  import opened CircuitBreaker

  datatype Event = Arrives(at: Time) | Succeeds(at: Time) | Fails(at: Time)

  predicate Refused(b: Breaker, now: Time) {
    b.estado == Abierto && now < b.abiertoHasta
  }

  function Next(o: Options, b: Breaker, e: Event): Breaker {
    match e
    case Arrives(now) => if b.estado == Abierto && !Refused(b, now) then b.(estado := Tanteando) else b
    case Succeeds(_) => AlExito(b)
    case Fails(now) => AlFallo(o, b, now)
  }

  function Now(o: Options, events: seq<Event>): Breaker {
    if events == [] then FRESH else Next(o, Now(o, events[..|events|-1]), events[|events|-1])
  }

  // ---------------------------------------------------------------- the history

  /** Failures since the last success, whichever calls they were of. */
  function InARow(events: seq<Event>): nat {
    if events == [] then 0
    else
      var before := InARow(events[..|events|-1]);
      match events[|events|-1]
      case Arrives(_) => before
      case Succeeds(_) => 0
      case Fails(_) => before + 1
  }

  function LastFail(events: seq<Event>): Time {
    if events == [] then 0
    else if events[|events|-1].Fails? then events[|events|-1].at
    else LastFail(events[..|events|-1])
  }

  predicate Ordered(events: seq<Event>) {
    forall i, k :: 0 <= i < k < |events| ==> events[i].at <= events[k].at
  }

  lemma {:induction false} FieldsAreHistory(o: Options, events: seq<Event>)
    requires ValidOptions(o) && Ordered(events)
    ensures var b := Now(o, events);
            && (b.estado != Cerrado <==> InARow(events) >= o.failureThreshold)
            && (b.estado == Cerrado ==> b.fallosSeguidos == InARow(events))
            && (b.estado != Cerrado ==>
                  b.fallosSeguidos >= o.failureThreshold && b.abiertoHasta == LastFail(events) + o.resetMs)
            && (b.estado == Tanteando ==> events != [] && b.abiertoHasta <= events[|events|-1].at)
  {
    if events != [] {
      var before := events[..|events|-1];
      FieldsAreHistory(o, before);
      if before != [] {
        assert events[|before|-1].at <= events[|events|-1].at;
      }
    }
  }

  /**
   * A call that arrives is refused exactly when the threshold has been reached
   * since the last success and the last failure ended less than a rest ago.
   */
  lemma RefusedExactly(o: Options, events: seq<Event>, now: Time)
    requires ValidOptions(o) && Ordered(events + [Arrives(now)])
    ensures Refused(Now(o, events), now) <==>
              InARow(events) >= o.failureThreshold && now < LastFail(events) + o.resetMs
  {
    var all := events + [Arrives(now)];
    assert forall i :: 0 <= i < |events| ==> events[i] == all[i] && all[i].at <= all[|events|].at;
    FieldsAreHistory(o, events);
  }

  /** Once one call is let through to try, every other that arrives before one of them ends goes with it. */
  lemma {:induction false} TrialIsNotAlone(o: Options, events: seq<Event>, first: Time, others: seq<Event>, now: Time)
    requires ValidOptions(o) && Ordered(events + [Arrives(first)] + others + [Arrives(now)])
    requires forall e :: e in others ==> e.Arrives?
    requires !Refused(Now(o, events), first)
    ensures !Refused(Now(o, events + [Arrives(first)] + others), now)
  {
    var start := events + [Arrives(first)];
    var all := start + others;
    var whole := all + [Arrives(now)];
    assert forall i :: 0 <= i < |start| ==> start[i] == whole[i];
    RefusedExactly(o, events, first);
    ArrivalsChangeNothing(start, others);
    assert start[..|events|] == events;
    assert whole[|events|].at <= whole[|all|].at;
    RefusedExactly(o, all, now);
  }

  lemma {:induction false} ArrivalsChangeNothing(events: seq<Event>, others: seq<Event>)
    requires forall e :: e in others ==> e.Arrives?
    ensures InARow(events + others) == InARow(events) && LastFail(events + others) == LastFail(events)
  {
    if others == [] {
      assert events + others == events;
    } else {
      var n := |others| - 1;
      ArrivalsChangeNothing(events, others[..n]);
      assert (events + others)[..|events| + n] == events + others[..n];
      assert others[n] in others;
    }
  }

  // ---------------------------------------------------------------- one call at a time

  /** The events of calls that do not overlap. */
  function Flat(o: Options, calls: seq<Call>): seq<Event> {
    if calls == [] then []
    else
      var n := |calls| - 1;
      Flat(o, calls[..n]) + Events(o, After(o, calls[..n]), calls[n])
  }

  function Events(o: Options, b: Breaker, c: Call): seq<Event> {
    if Refused(b, c.start) then [Arrives(c.start)]
    else [Arrives(c.start), if c.ok then Succeeds(c.finish) else Fails(c.finish)]
  }

  lemma NowOne(o: Options, events: seq<Event>, e: Event)
    ensures Now(o, events + [e]) == Next(o, Now(o, events), e)
  {
    assert (events + [e])[..|events|] == events;
  }

  /** Calls one after another leave the breaker of the other model. */
  lemma {:induction false} OneAtATime(o: Options, calls: seq<Call>)
    ensures Now(o, Flat(o, calls)) == After(o, calls)
  {
    if calls != [] {
      var n := |calls| - 1;
      var c, events := calls[n], Flat(o, calls[..n]);
      OneAtATime(o, calls[..n]);
      NowOne(o, events, Arrives(c.start));
      if !Refused(After(o, calls[..n]), c.start) {
        var last := if c.ok then Succeeds(c.finish) else Fails(c.finish);
        NowOne(o, events + [Arrives(c.start)], last);
        assert Flat(o, calls) == events + [Arrives(c.start)] + [last];
      }
    }
  }
}
