/**
 * The timing-and-accumulation rules of the energy-meter sketch, as values.
 *
 * `Meter` holds the sketch's three mutable globals (`totalPower`, `startTime`,
 * `lastDataSendTime`); a `Step` is the meter after one operation together with
 * the datastore writes that operation attempted, in order. Whether a write
 * succeeds never changes the meter, so the writes are recorded without their
 * outcomes (the imperative model in module Firmware adds them).
 */
module Energy {
  import opened Clock

  /** Minimum spacing of two loop passes that take a reading (15 s). */
  const SEND_INTERVAL: Millis := 15000

  /** Length of the accumulation window (24 h in milliseconds). */
  const DAY: Millis := 86400000

  /** The four keys the sketch writes under. */
  datatype Key = Current | Power | Voltage | DayTotal

  /** The datastore path each key is written to. */
  function Path(k: Key): string
  {
    match k
    case Current => "path/current"
    case Power => "path/power"
    case Voltage => "path/voltage"
    case DayTotal => "path/24_hour_power"
  }

  /** One attempted `setDouble` call. */
  datatype Write = Write(key: Key, value: real)

  /** The sketch's mutable globals; `double` is abstracted to `real`. */
  datatype Meter = Meter(totalPower: real, startTime: Millis, lastDataSendTime: Millis)

  /** The meter after an operation, and the writes it attempted, in order. */
  datatype Step = Step(meter: Meter, writes: seq<Write>)

  /** One pass of the sketch's `loop`: what the environment answers to it. */
  datatype Iteration = Iteration(
    gateNow: Millis,     // millis() in the gate condition
    stampNow: Millis,    // millis() stored in lastDataSendTime
    accNow: Millis,      // millis() read by the 24-hour accumulator
    ready: bool,         // Firebase.ready()
    signupOK: bool,      // whether the anonymous signup in setup succeeded
    voltage: real,       // emon1.Vrms after calcVI
    amps: real)          // emon1.Irms after calcVI

  /**
   * The state after the globals' initialisers and `setup`, which stamps the
   * start of the first window with the clock reading taken at its end.
   */
  function Boot(setupNow: Millis): (m: Meter)
    ensures m.totalPower == 0.0 && m.lastDataSendTime == 0 && m.startTime == setupNow
  {
    Meter(0.0, setupNow, 0)
  }

  /** The accumulator's expiry test, on 32-bit modular time. */
  predicate WindowExpired(startTime: Millis, now: Millis) {
    Elapsed(now, startTime) >= DAY
  }

  /**
   * `calculate24HourPower(watt)` with the clock reading `now`: the sample is
   * added first, then on expiry the total (including this sample) is emitted
   * once and the window restarts at `now` whatever the emit's outcome.
   */
  function AccumulateStep(m: Meter, watt: real, now: Millis): (r: Step)
    ensures r.meter.lastDataSendTime == m.lastDataSendTime
    ensures WindowExpired(m.startTime, now) ==>
      r.writes == [Write(DayTotal, m.totalPower + watt)] &&
      r.meter.totalPower == 0.0 && r.meter.startTime == now
    ensures !WindowExpired(m.startTime, now) ==>
      r.writes == [] &&
      r.meter.totalPower == m.totalPower + watt && r.meter.startTime == m.startTime
  {
    var total := m.totalPower + watt;
    if WindowExpired(m.startTime, now) then
      Step(m.(totalPower := 0.0, startTime := now), [Write(DayTotal, total)])
    else
      Step(m.(totalPower := total), [])
  }

  /**
   * `sendDataToFirebase(voltage, amps, watt)`: three independent writes in a
   * fixed order, none of which can stop the others, then one accumulate call
   * with the same `watt`.
   */
  function PublishStep(m: Meter, voltage: real, amps: real, watt: real, now: Millis): (r: Step)
    ensures |r.writes| >= 3
    ensures r.writes[..3] == [Write(Current, amps), Write(Power, watt), Write(Voltage, voltage)]
    ensures Step(r.meter, r.writes[3..]) == AccumulateStep(m, watt, now)
  {
    var acc := AccumulateStep(m, watt, now);
    Step(acc.meter, [Write(Current, amps), Write(Power, watt), Write(Voltage, voltage)] + acc.writes)
  }

  /**
   * The gate of `loop`: the database is ready, signup succeeded, and either
   * strictly more than SEND_INTERVAL has elapsed since the last stamp or no
   * stamp has been taken (the stamp 0 doubles as "never").
   */
  predicate SendDue(m: Meter, gateNow: Millis, ready: bool, signupOK: bool) {
    ready && signupOK &&
    (Elapsed(gateNow, m.lastDataSendTime) > SEND_INTERVAL || m.lastDataSendTime == 0)
  }

  /** The power the sketch derives from one reading. */
  function Watt(x: Iteration): real {
    x.amps * x.voltage
  }

  /**
   * One call of `loop`: when the gate is open, stamp the time, take a
   * reading and publish it; otherwise do nothing at all.
   */
  function LoopStep(m: Meter, x: Iteration): (r: Step)
    ensures !SendDue(m, x.gateNow, x.ready, x.signupOK) ==> r == Step(m, [])
    ensures SendDue(m, x.gateNow, x.ready, x.signupOK) ==>
      r.meter.lastDataSendTime == x.stampNow &&
      r == PublishStep(m.(lastDataSendTime := x.stampNow), x.voltage, x.amps, Watt(x), x.accNow)
  {
    if SendDue(m, x.gateNow, x.ready, x.signupOK) then
      PublishStep(m.(lastDataSendTime := x.stampNow), x.voltage, x.amps, Watt(x), x.accNow)
    else
      Step(m, [])
  }

  /** Successive calls of `loop`, with every write attempted on the way. */
  function Run(m: Meter, xs: seq<Iteration>): (r: Step)
    decreases |xs|
  {
    if xs == [] then Step(m, [])
    else
      var first := LoopStep(m, xs[0]);
      var rest := Run(first.meter, xs[1..]);
      Step(rest.meter, first.writes + rest.writes)
  }

  /** The sum of the values written under key `k`. */
  function KeySum(ws: seq<Write>, k: Key): real
    decreases |ws|
  {
    if ws == [] then 0.0
    else (if ws[0].key == k then ws[0].value else 0.0) + KeySum(ws[1..], k)
  }

  /** Whether any write in `ws` goes to key `k`. */
  predicate Mentions(ws: seq<Write>, k: Key) {
    exists i :: 0 <= i < |ws| && ws[i].key == k
  }

  // ---------------------------------------------------------------------------
  // Keys and sums

  /** Distinct keys go to distinct paths. */
  lemma PathInjective(j: Key, k: Key)
    requires j != k
    ensures Path(j) != Path(k)
  {
  }

  lemma {:induction false} KeySumAppend(a: seq<Write>, b: seq<Write>, k: Key)
    ensures KeySum(a + b, k) == KeySum(a, k) + KeySum(b, k)
    decreases |a|
  {
    if a == [] {
      assert a + b == b;
    } else {
      assert (a + b)[1..] == a[1..] + b;
      KeySumAppend(a[1..], b, k);
    }
  }

  lemma {:induction false} KeySumAbsent(ws: seq<Write>, k: Key)
    requires !Mentions(ws, k)
    ensures KeySum(ws, k) == 0.0
    decreases |ws|
  {
    if ws != [] {
      assert ws[0].key != k;
      assert !Mentions(ws[1..], k) by {
        forall i | 0 <= i < |ws[1..]|
          ensures ws[1..][i].key != k
        {
          assert ws[1..][i] == ws[i + 1];
        }
      }
      KeySumAbsent(ws[1..], k);
    }
  }

  // ---------------------------------------------------------------------------
  // The 24-hour window

  /** With the window opened at 0, 86400000 expires and 86399999 does not. */
  lemma ExpiryBoundary()
    ensures WindowExpired(0, 86400000)
    ensures !WindowExpired(0, 86399999)
  {
  }

  /**
   * Expiry depends only on the real delay since the window opened, even when
   * `millis()` wrapped in between.
   */
  lemma ExpiryAcrossRollover(startTime: Millis, delay: nat)
    requires delay < WRAP
    ensures WindowExpired(startTime, Advance(startTime, delay)) <==> delay >= DAY
  {
    ElapsedAdvance(startTime, delay);
  }

  /** A concrete rollover: opened 1 s before the wrap, expiring 24 h later at 86399000. */
  lemma ExpiryAfterWrap()
    ensures WindowExpired(WRAP - 1000, DAY - 1000)
    ensures !WindowExpired(WRAP - 1000, DAY - 1001)
  {
    ElapsedUnique(DAY - 1000, WRAP - 1000, DAY);
    ElapsedUnique(DAY - 1001, WRAP - 1000, DAY - 1);
  }

  /**
   * Right after an expiry, no further emit can happen until a whole window
   * has passed since the reset.
   */
  lemma EmitOncePerWindow(m: Meter, watt: real, now: Millis, watt': real, now': Millis)
    requires WindowExpired(m.startTime, now)
    requires Elapsed(now', now) < DAY
    ensures AccumulateStep(AccumulateStep(m, watt, now).meter, watt', now').writes == []
  {
  }

  // ---------------------------------------------------------------------------
  // The send gate

  /** After boot, the first pass with a ready database runs, whatever the clock says. */
  lemma FirstPassRuns(setupNow: Millis, x: Iteration)
    requires x.ready && x.signupOK
    ensures SendDue(Boot(setupNow), x.gateNow, x.ready, x.signupOK)
  {
  }

  /** The gate is exactly the source's condition, and its comparison is strict. */
  lemma GateStrict(m: Meter, gateNow: Millis)
    requires m.lastDataSendTime != 0
    requires Elapsed(gateNow, m.lastDataSendTime) == SEND_INTERVAL
    ensures !SendDue(m, gateNow, true, true)
  {
  }

  /**
   * A pass that is taken stamps a nonzero time; a second pass no more than
   * SEND_INTERVAL after that stamp changes nothing and writes nothing.
   */
  lemma SecondPassWithinIntervalIsNoOp(m: Meter, x: Iteration, y: Iteration)
    requires SendDue(m, x.gateNow, x.ready, x.signupOK)
    requires x.stampNow != 0
    requires Elapsed(y.gateNow, x.stampNow) <= SEND_INTERVAL
    ensures LoopStep(LoopStep(m, x).meter, y) == Step(LoopStep(m, x).meter, [])
  {
    var s := LoopStep(m, x).meter;
    assert s.lastDataSendTime == x.stampNow;
    assert !SendDue(s, y.gateNow, y.ready, y.signupOK);
  }

  /**
   * The stamp 0 is also the "never sent" value: a pass taken when `millis()`
   * reads 0 (possible after a rollover) leaves the gate open on the very next
   * pass, however little time has passed.
   */
  lemma ZeroStampReopensGate(m: Meter, x: Iteration, y: Iteration)
    requires SendDue(m, x.gateNow, x.ready, x.signupOK)
    requires x.stampNow == 0
    requires y.ready && y.signupOK
    ensures SendDue(LoopStep(m, x).meter, y.gateNow, y.ready, y.signupOK)
  {
  }

  /**
   * A pass that runs attempts exactly current, power, voltage in that order,
   * plus at most the one 24-hour emit, and it accumulates exactly its own
   * power reading.
   */
  lemma PassWrites(m: Meter, x: Iteration)
    requires SendDue(m, x.gateNow, x.ready, x.signupOK)
    ensures var r := LoopStep(m, x);
      (|r.writes| == 3 || |r.writes| == 4) &&
      r.writes[0].key == Current && r.writes[1].key == Power && r.writes[2].key == Voltage &&
      r.writes[1].value == Watt(x) &&
      (|r.writes| == 4 <==> WindowExpired(m.startTime, x.accNow)) &&
      (|r.writes| == 4 ==> r.writes[3] == Write(DayTotal, m.totalPower + Watt(x)))
  {
    var r := LoopStep(m, x);
    assert r.writes[3..] == AccumulateStep(m.(lastDataSendTime := x.stampNow), Watt(x), x.accNow).writes;
  }

  // ---------------------------------------------------------------------------
  // Conservation over many passes

  /**
   * One pass neither loses nor invents power: what it emits as a 24-hour total,
   * plus what it leaves in the open window, equals what was in the window plus
   * the power it published.
   */
  lemma LoopStepConserves(m: Meter, x: Iteration)
    ensures var r := LoopStep(m, x);
      KeySum(r.writes, DayTotal) + r.meter.totalPower == m.totalPower + KeySum(r.writes, Power)
  {
    var r := LoopStep(m, x);
    if SendDue(m, x.gateNow, x.ready, x.signupOK) {
      var acc := AccumulateStep(m.(lastDataSendTime := x.stampNow), Watt(x), x.accNow);
      var head := [Write(Current, x.amps), Write(Power, Watt(x)), Write(Voltage, x.voltage)];
      assert r.writes == head + acc.writes;
      KeySumAppend(head, acc.writes, DayTotal);
      KeySumAppend(head, acc.writes, Power);
      assert head[1..] == [Write(Power, Watt(x)), Write(Voltage, x.voltage)];
      assert head[1..][1..] == [Write(Voltage, x.voltage)];
      assert head[1..][1..][1..] == [];
      assert KeySum(head[1..][1..], DayTotal) == 0.0 && KeySum(head[1..][1..], Power) == 0.0;
      assert KeySum(head[1..], DayTotal) == 0.0 && KeySum(head[1..], Power) == Watt(x);
      assert KeySum(head, DayTotal) == 0.0 && KeySum(head, Power) == Watt(x);
      if WindowExpired(m.startTime, x.accNow) {
        assert acc.writes[1..] == [];
      }
    }
  }

  /**
   * Every power reading the sketch publishes ends up counted exactly once:
   * either in an emitted 24-hour total or in the window still open.
   */
  lemma {:induction false} RunConserves(m: Meter, xs: seq<Iteration>)
    ensures var r := Run(m, xs);
      KeySum(r.writes, DayTotal) + r.meter.totalPower == m.totalPower + KeySum(r.writes, Power)
    decreases |xs|
  {
    if xs != [] {
      var first := LoopStep(m, xs[0]);
      var rest := Run(first.meter, xs[1..]);
      LoopStepConserves(m, xs[0]);
      RunConserves(first.meter, xs[1..]);
      KeySumAppend(first.writes, rest.writes, DayTotal);
      KeySumAppend(first.writes, rest.writes, Power);
    }
  }

  /**
   * Within one window (no accumulator clock reading reaches a full day past
   * the window's start) nothing is emitted, the window keeps its start, and
   * the open total is the old total plus the sum of the published powers.
   */
  lemma {:induction false} RunWithinWindow(m: Meter, xs: seq<Iteration>)
    requires forall i :: 0 <= i < |xs| ==> !WindowExpired(m.startTime, xs[i].accNow)
    ensures var r := Run(m, xs);
      !Mentions(r.writes, DayTotal) &&
      r.meter.startTime == m.startTime &&
      r.meter.totalPower == m.totalPower + KeySum(r.writes, Power)
    decreases |xs|
  {
    var r := Run(m, xs);
    if xs != [] {
      var first := LoopStep(m, xs[0]);
      var rest := Run(first.meter, xs[1..]);
      assert !WindowExpired(m.startTime, xs[0].accNow);
      assert first.meter.startTime == m.startTime;
      assert !Mentions(first.writes, DayTotal);
      forall i | 0 <= i < |xs[1..]|
        ensures !WindowExpired(first.meter.startTime, xs[1..][i].accNow)
      {
        assert xs[1..][i] == xs[i + 1];
      }
      RunWithinWindow(first.meter, xs[1..]);
      forall i | 0 <= i < |r.writes|
        ensures r.writes[i].key != DayTotal
      {
        if i < |first.writes| {
          assert r.writes[i] == first.writes[i];
        } else {
          assert r.writes[i] == rest.writes[i - |first.writes|];
        }
      }
    }
    RunConserves(m, xs);
    KeySumAbsent(r.writes, DayTotal);
  }
}
