/**
 * The sketch's globals and its three routines as an object whose fields are
 * updated in place, proved against the step functions of module Energy.
 *
 * The realtime database is a second object: every `setDouble` call is
 * appended to its log together with the answer it got, and the answer comes
 * from a caller-chosen oracle, so nothing below depends on whether a write
 * succeeds.
 */
module Firmware {
  import opened Clock
  import opened Energy

  /** One `setDouble` call and whether the database accepted it. */
  datatype Attempt = Attempt(write: Write, ok: bool)

  /** The writes of a log, in the order they were attempted. */
  function Attempted(log: seq<Attempt>): (ws: seq<Write>)
    ensures |ws| == |log|
    ensures forall i :: 0 <= i < |log| ==> ws[i] == log[i].write
    decreases |log|
  {
    if log == [] then [] else Attempted(log[..|log| - 1]) + [log[|log| - 1].write]
  }

  /** The Firebase realtime database as the sketch sees it. */
  class Database {
    /** Every write attempted so far, oldest first. */
    var log: seq<Attempt>
    /** The answer the database gives to the write attempted as the n-th one. */
    const accepts: (Write, nat) -> bool

    constructor (accepts: (Write, nat) -> bool)
      ensures log == [] && this.accepts == accepts
    {
      log := [];
      this.accepts := accepts;
    }

    /** `Firebase.RTDB.setDouble(&fbdo, Path(key), value)`. */
    method SetDouble(key: Key, value: real) returns (ok: bool)
      modifies this
      ensures ok == accepts(Write(key, value), |old(log)|)
      ensures log == old(log) + [Attempt(Write(key, value), ok)]
    {
      ok := accepts(Write(key, value), |log|);
      log := log + [Attempt(Write(key, value), ok)];
    }
  }

  /** The sketch's mutable globals and the routines that update them. */
  class EnergyMeter {
    var totalPower: real
    var startTime: Millis
    var lastDataSendTime: Millis
    const db: Database

    /** The globals as a value of the specification. */
    function Snapshot(): Meter
      reads this
    {
      Meter(totalPower, startTime, lastDataSendTime)
    }

    /** The global initialisers followed by `setup`, whose last act reads the clock. */
    constructor Setup(db: Database, setupNow: Millis)
      ensures Snapshot() == Boot(setupNow)
      ensures this.db == db
    {
      totalPower := 0.0;
      lastDataSendTime := 0;
      startTime := 0;
      this.db := db;
      startTime := setupNow;
    }

    /** `calculate24HourPower(watt)`, where `now` is the `millis()` it reads. */
    method Calculate24HourPower(watt: real, now: Millis)
      modifies this, db
      ensures Snapshot() == AccumulateStep(old(Snapshot()), watt, now).meter
      ensures Attempted(db.log) == Attempted(old(db.log)) + AccumulateStep(old(Snapshot()), watt, now).writes
      ensures db.log[..|old(db.log)|] == old(db.log)
      ensures forall i :: |old(db.log)| <= i < |db.log| ==> db.log[i].ok == db.accepts(db.log[i].write, i)
    {
      totalPower := totalPower + watt;
      var currentTime := now;
      if Elapsed(currentTime, startTime) >= DAY {
        var stored := db.SetDouble(DayTotal, totalPower);
        totalPower := 0.0;
        startTime := currentTime;
      }
    }

    /** `sendDataToFirebase(voltage, amps, watt)`, with `now` the accumulator's clock reading. */
    method SendDataToFirebase(voltage: real, amps: real, watt: real, now: Millis)
      modifies this, db
      ensures Snapshot() == PublishStep(old(Snapshot()), voltage, amps, watt, now).meter
      ensures Attempted(db.log) == Attempted(old(db.log)) + PublishStep(old(Snapshot()), voltage, amps, watt, now).writes
      ensures db.log[..|old(db.log)|] == old(db.log)
      ensures forall i :: |old(db.log)| <= i < |db.log| ==> db.log[i].ok == db.accepts(db.log[i].write, i)
    {
      ghost var log0 := db.log;
      var wroteCurrent := db.SetDouble(Current, amps);
      var wrotePower := db.SetDouble(Power, watt);
      var wroteVoltage := db.SetDouble(Voltage, voltage);
      ghost var head := [Write(Current, amps), Write(Power, watt), Write(Voltage, voltage)];
      assert Attempted(db.log) == Attempted(log0) + head;
      Calculate24HourPower(watt, now);
    }

    /**
     * One call of `loop`. The three clock readings are the `millis()` calls of
     * the gate, of the stamp and of the accumulator; `voltage` and `amps` are
     * what `calcVI` would measure on this pass.
     */
    method Loop(gateNow: Millis, stampNow: Millis, accNow: Millis,
                ready: bool, signupOK: bool, voltage: real, amps: real)
      modifies this, db
      ensures var x := Iteration(gateNow, stampNow, accNow, ready, signupOK, voltage, amps);
        Snapshot() == LoopStep(old(Snapshot()), x).meter &&
        Attempted(db.log) == Attempted(old(db.log)) + LoopStep(old(Snapshot()), x).writes
      ensures db.log[..|old(db.log)|] == old(db.log)
      ensures forall i :: |old(db.log)| <= i < |db.log| ==> db.log[i].ok == db.accepts(db.log[i].write, i)
    {
      ghost var x := Iteration(gateNow, stampNow, accNow, ready, signupOK, voltage, amps);
      ghost var m := Snapshot();
      if ready && signupOK && (Elapsed(gateNow, lastDataSendTime) > SEND_INTERVAL || lastDataSendTime == 0) {
        assert SendDue(m, gateNow, ready, signupOK);
        lastDataSendTime := stampNow;
        var watt := amps * voltage;
        assert Snapshot() == m.(lastDataSendTime := stampNow) && watt == Watt(x);
        SendDataToFirebase(voltage, amps, watt, accNow);
      } else {
        assert !SendDue(m, gateNow, ready, signupOK);
        assert LoopStep(m, x).writes == [];
      }
    }
  }
}
