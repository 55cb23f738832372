/**
 * The circuit breaker around outside services, for calls that do not overlap.
 * Its three fields are shown to be a summary of the history of calls.
 */
module CircuitBreaker {

  type Time = nat

  datatype Estado = Cerrado | Abierto | Tanteando

  datatype Breaker = Breaker(estado: Estado, fallosSeguidos: nat, abiertoHasta: Time)

  const FRESH := Breaker(Cerrado, 0, 0)

  /** Thresholds as the services configure them. */
  datatype Options = Options(failureThreshold: nat, resetMs: nat)

  predicate ValidOptions(o: Options) {
    o.failureThreshold >= 1 && o.resetMs >= 1
  }

  /** A call: when it arrives, and if it is let through, when and how it ends. */
  datatype Call = Call(start: Time, finish: Time, ok: bool)

  datatype Outcome = Rejected | Succeeded | Failed

  // ---------------------------------------------------------------- the machine

  function AlExito(b: Breaker): Breaker {
    b.(estado := Cerrado, fallosSeguidos := 0)
  }

  function AlFallo(o: Options, b: Breaker, now: Time): Breaker {
    if b.estado == Tanteando then b.(estado := Abierto, abiertoHasta := now + o.resetMs)
    else if b.fallosSeguidos + 1 >= o.failureThreshold
    then Breaker(Abierto, b.fallosSeguidos + 1, now + o.resetMs)
    else b.(fallosSeguidos := b.fallosSeguidos + 1)
  }

  function RunCall(o: Options, b: Breaker, c: Call): (Breaker, Outcome) {
    if b.estado == Abierto && c.start < b.abiertoHasta then (b, Rejected)
    else
      var b1 := if b.estado == Abierto then b.(estado := Tanteando) else b;
      if c.ok then (AlExito(b1), Succeeded) else (AlFallo(o, b1, c.finish), Failed)
  }

  function After(o: Options, calls: seq<Call>): Breaker {
    if calls == [] then FRESH else RunCall(o, After(o, calls[..|calls|-1]), calls[|calls|-1]).0
  }

  function Outcomes(o: Options, calls: seq<Call>): (r: seq<Outcome>)
    ensures |r| == |calls|
  {
    if calls == [] then []
    else Outcomes(o, calls[..|calls|-1]) + [RunCall(o, After(o, calls[..|calls|-1]), calls[|calls|-1]).1]
  }

  // ---------------------------------------------------------------- the history

  /** Failures since the last success, refused calls left out. */
  function FailuresInARow(outs: seq<Outcome>): nat {
    if outs == [] then 0
    else
      var before := FailuresInARow(outs[..|outs|-1]);
      match outs[|outs|-1]
      case Rejected => before
      case Succeeded => 0
      case Failed => before + 1
  }

  /** When the last failure ended (0 if there was none). */
  function LastFailure(calls: seq<Call>, outs: seq<Outcome>): Time
    requires |outs| == |calls|
  {
    if calls == [] then 0
    else if outs[|outs|-1] == Failed then calls[|calls|-1].finish
    else LastFailure(calls[..|calls|-1], outs[..|outs|-1])
  }

  /** Open, told from the history alone. */
  predicate OpenAt(o: Options, calls: seq<Call>, outs: seq<Outcome>, now: Time)
    requires |outs| == |calls|
  {
    FailuresInARow(outs) >= o.failureThreshold && now < LastFailure(calls, outs) + o.resetMs
  }

  function Min(a: nat, b: nat): nat {
    if a <= b then a else b
  }

  /** The fields against the history: counter, state and deadline. */
  lemma {:induction false} StateIsHistory(o: Options, calls: seq<Call>)
    requires ValidOptions(o)
    ensures var b := After(o, calls);
            var outs := Outcomes(o, calls);
            && b.fallosSeguidos == Min(FailuresInARow(outs), o.failureThreshold)
            && (b.estado == Abierto <==> FailuresInARow(outs) >= o.failureThreshold)
            && b.estado != Tanteando
            && (b.estado == Abierto ==> b.abiertoHasta == LastFailure(calls, outs) + o.resetMs)
  {
    if calls != [] {
      var before := calls[..|calls|-1];
      var outs := Outcomes(o, calls);
      StateIsHistory(o, before);
      assert outs[..|outs|-1] == Outcomes(o, before);
    }
  }

  /** A call is refused exactly when the history says the circuit is open at its arrival. */
  lemma {:induction false} RejectedIffOpen(o: Options, calls: seq<Call>, k: nat)
    requires ValidOptions(o) && k < |calls|
    ensures Outcomes(o, calls)[k] == Rejected <==>
              OpenAt(o, calls[..k], Outcomes(o, calls)[..k], calls[k].start)
    ensures Outcomes(o, calls)[k] == Succeeded ==> calls[k].ok
    ensures Outcomes(o, calls)[k] == Failed ==> !calls[k].ok
  {
    PrefixOutcomes(o, calls, k);
    PrefixOutcomes(o, calls, k + 1);
    StateIsHistory(o, calls[..k]);
    assert calls[..k+1][..k] == calls[..k];
  }

  lemma {:induction false} PrefixOutcomes(o: Options, calls: seq<Call>, k: nat)
    requires k <= |calls|
    ensures Outcomes(o, calls)[..k] == Outcomes(o, calls[..k])
    decreases |calls|
  {
    if k < |calls| {
      PrefixOutcomes(o, calls[..|calls|-1], k);
      assert calls[..|calls|-1][..k] == calls[..k];
      assert Outcomes(o, calls)[..k] == Outcomes(o, calls[..|calls|-1])[..k];
    } else {
      assert calls[..k] == calls;
    }
  }

  // ---------------------------------------------------------------- the rate

  function Invoked(outs: seq<Outcome>): nat {
    if outs == [] then 0
    else Invoked(outs[..|outs|-1]) + (if outs[|outs|-1] == Rejected then 0 else 1)
  }

  /** Calls one after another, from t0 on. */
  predicate InOrder(calls: seq<Call>, t0: Time) {
    && (forall i :: 0 <= i < |calls| ==> t0 <= calls[i].start <= calls[i].finish)
    && (forall i, k :: 0 <= i < k < |calls| ==> calls[i].finish <= calls[k].start)
  }

  predicate NoSuccess(outs: seq<Outcome>) {
    forall i :: 0 <= i < |outs| ==> outs[i] != Succeeded
  }

  /** When the last call that was let through arrived (0 if there was none). */
  function LastStart(calls: seq<Call>, outs: seq<Outcome>): Time
    requires |outs| == |calls|
  {
    if calls == [] then 0
    else if outs[|outs|-1] != Rejected then calls[|calls|-1].start
    else LastStart(calls[..|calls|-1], outs[..|outs|-1])
  }

  /** k rests in a row. */
  function Rests(o: Options, k: nat): nat {
    if k == 0 then 0 else Rests(o, k - 1) + o.resetMs
  }

  /** Without a success, every invocation past the threshold has paid a full rest. */
  lemma {:induction false} FailuresArePaced(o: Options, calls: seq<Call>, t0: Time)
    requires ValidOptions(o) && InOrder(calls, t0) && NoSuccess(Outcomes(o, calls))
    ensures var outs := Outcomes(o, calls);
            && Invoked(outs) == FailuresInARow(outs)
            && (Invoked(outs) > 0 ==> t0 <= LastStart(calls, outs) <= LastFailure(calls, outs))
            && (Invoked(outs) > o.failureThreshold ==>
                  t0 + Rests(o, Invoked(outs) - o.failureThreshold) <= LastStart(calls, outs))
  {
    hide InOrder, NoSuccess, After, RunCall;
    if calls != [] {
      var n := |calls| - 1;
      var outs := Outcomes(o, calls);
      OrderedPrefix(o, calls, t0);
      FailuresArePaced(o, calls[..n], t0);
      RejectedIffOpen(o, calls, n);
      assert outs[..n] == Outcomes(o, calls[..n]);
      if outs[n] == Failed && Invoked(outs[..n]) >= o.failureThreshold {
        assert Rests(o, Invoked(outs) - o.failureThreshold) ==
          Rests(o, Invoked(outs[..n]) - o.failureThreshold) + o.resetMs;
      }
    }
  }

  lemma OrderedPrefix(o: Options, calls: seq<Call>, t0: Time)
    requires calls != [] && InOrder(calls, t0) && NoSuccess(Outcomes(o, calls))
    ensures var n := |calls| - 1;
            && InOrder(calls[..n], t0) && NoSuccess(Outcomes(o, calls[..n]))
            && Outcomes(o, calls)[n] != Succeeded && t0 <= calls[n].start <= calls[n].finish
  {
    var n := |calls| - 1;
    assert forall i :: 0 <= i < n ==> Outcomes(o, calls[..n])[i] == Outcomes(o, calls)[i];
  }

  lemma {:induction false} LastStartBy(calls: seq<Call>, outs: seq<Outcome>, now: Time)
    requires |outs| == |calls| && forall i :: 0 <= i < |calls| ==> calls[i].start <= now
    ensures LastStart(calls, outs) <= now
  {
    if calls != [] {
      LastStartBy(calls[..|calls|-1], outs[..|outs|-1], now);
    }
  }

  /**
   * In any stretch without a success from a fresh breaker, observed up to
   * `now`, the operation runs at most threshold + floor(elapsed / rest) times.
   */
  lemma InvocationBound(o: Options, calls: seq<Call>, t0: Time, now: Time)
    requires ValidOptions(o) && InOrder(calls, t0) && NoSuccess(Outcomes(o, calls))
    requires t0 <= now && forall i :: 0 <= i < |calls| ==> calls[i].start <= now
    ensures Invoked(Outcomes(o, calls)) <= o.failureThreshold + (now - t0) / o.resetMs
  {
    hide Outcomes, Invoked, FailuresInARow, LastStart, LastFailure, InOrder, NoSuccess, Rests;
    FailuresArePaced(o, calls, t0);
    LastStartBy(calls, Outcomes(o, calls), now);
    RestsFit(o, Invoked(Outcomes(o, calls)), now - t0);
  }

  lemma RestsFit(o: Options, k: nat, n: nat)
    requires ValidOptions(o) && (k > o.failureThreshold ==> Rests(o, k - o.failureThreshold) <= n)
    ensures k <= o.failureThreshold + n / o.resetMs
  {
    if k > o.failureThreshold {
      RestsMultiply(o, k - o.failureThreshold);
      QuotientBound(k - o.failureThreshold, o.resetMs, n);
    } else {
      QuotientBound(0, o.resetMs, n);
    }
  }

  lemma {:induction false} RestsMultiply(o: Options, k: nat)
    ensures Rests(o, k) == k * o.resetMs
  {
    if k > 0 {
      RestsMultiply(o, k - 1);
    }
  }

  lemma MulOrder(a: nat, b: nat, d: nat)
    requires a <= b
    ensures a * d <= b * d
  {
  }

  lemma QuotientBound(k: nat, d: nat, n: nat)
    requires d >= 1 && k * d <= n
    ensures k <= n / d
  {
    var q := n / d;
    assert n < (q + 1) * d;
    if q + 1 <= k {
      MulOrder(q + 1, k, d);
    }
  }

  // ---------------------------------------------------------------- the class

  class Cortacircuitos {
    const options: Options
    var estado: Estado
    var fallosSeguidos: nat
    var abiertoHasta: Time
    ghost var calls: seq<Call>

    ghost function State(): Breaker
      reads this
    {
      Breaker(estado, fallosSeguidos, abiertoHasta)
    }

    /** The history of answers. */
    ghost function Answers(): (outs: seq<Outcome>)
      reads this
      ensures |outs| == |calls|
    {
      Outcomes(options, calls)
    }

    /** The three fields summarise the calls so far. */
    ghost predicate Valid()
      reads this
    {
      && ValidOptions(options)
      && State() == After(options, calls)
      && estado != Tanteando
      && fallosSeguidos == Min(FailuresInARow(Answers()), options.failureThreshold)
      && (estado == Abierto <==> FailuresInARow(Answers()) >= options.failureThreshold)
      && (estado == Abierto ==> abiertoHasta == LastFailure(calls, Answers()) + options.resetMs)
    }

    constructor (options: Options)
      requires ValidOptions(options)
      ensures Valid() && this.options == options && State() == FRESH && calls == []
    {
      this.options := options;
      estado, fallosSeguidos, abiertoHasta := Cerrado, 0, 0;
      calls := [];
    }

    /** What readiness reports is what the history says. */
    predicate IsOpen(now: Time)
      requires Valid()
      reads this
      ensures IsOpen(now) <==> OpenAt(options, calls, Answers(), now)
    {
      estado == Abierto && now < abiertoHasta
    }

    /** One call: refused at once exactly while the circuit is open, else run to its end and counted. */
    method Run(c: Call) returns (outcome: Outcome)
      requires Valid()
      modifies this
      ensures Valid() && calls == old(calls) + [c] && Answers() == old(Answers()) + [outcome]
      ensures outcome == Rejected <==> old(IsOpen(c.start))
      ensures outcome == Rejected <==> OpenAt(options, old(calls), old(Answers()), c.start)
      ensures outcome != Rejected ==> (outcome == Succeeded <==> c.ok)
      ensures outcome == Rejected ==> State() == old(State())
      ensures (State(), outcome) == RunCall(options, old(State()), c)
    {
      hide FailuresInARow, LastFailure;
      assert (calls + [c])[..|calls|] == calls;
      StateIsHistory(options, calls + [c]);
      calls := calls + [c];
      if estado == Abierto {
        if c.start < abiertoHasta {
          return Rejected;
        }
        estado := Tanteando;
      }
      if c.ok {
        Exito();
        return Succeeded;
      }
      Fallo(c.finish);
      outcome := Failed;
    }

    method Exito()
      modifies this`estado, this`fallosSeguidos
      ensures State() == AlExito(old(State()))
    {
      estado := Cerrado;
      fallosSeguidos := 0;
    }

    method Fallo(now: Time)
      modifies this`estado, this`fallosSeguidos, this`abiertoHasta
      ensures State() == AlFallo(options, old(State()), now)
    {
      if estado == Tanteando {
        Abrir(now);
        return;
      }
      fallosSeguidos := fallosSeguidos + 1;
      if fallosSeguidos >= options.failureThreshold {
        Abrir(now);
      }
    }

    method Abrir(now: Time)
      modifies this`estado, this`abiertoHasta
      ensures estado == Abierto && abiertoHasta == now + options.resetMs
    {
      estado := Abierto;
      abiertoHasta := now + options.resetMs;
    }
  }
}
