# Energy meter: send gate and 24-hour accumulator

This is a model of the timing-and-accumulation logic of an ESP32 energy-meter sketch. On every call of `loop` the sketch decides whether to take a reading. To qualify, the database must be ready, signup must have succeeded, and either more than 15 s must have passed since the last stamp or no stamp has been taken yet. A qualifying pass stamps the time and computes power as current × voltage. It then writes current, power and voltage to the realtime database, each write independent of the others, and feeds the power to a 24-hour accumulator. When the accumulator's window has lasted 86 400 000 ms, it emits its total (including the current sample) once under `path/24_hour_power`. It then restarts from zero at the current time, whether or not the emit succeeded.

The project has three modules:

- `Clock` (`clock.dfy`): the 32-bit `millis()` counter.
  - `Elapsed` is the source's `unsigned long` subtraction, taken modulo 2^32.
  - Its contract characterises the result as the unique 32-bit delay that carries one reading to the other.
- `Energy` (`energy.dfy`): the specification, as values.
  - `Meter` holds the three globals `totalPower`, `startTime` and `lastDataSendTime`.
  - `AccumulateStep`, `PublishStep` and `LoopStep` give the state after `calculate24HourPower`, `sendDataToFirebase` and `loop`, together with the writes each one attempts, in order.
  - `Run` folds `LoopStep` over a sequence of passes.
  - The lemmas state the gate, the window boundaries, behaviour across rollover, and conservation of power over any number of passes.
- `Firmware` (`firmware.dfy`): the sketch itself, written imperatively and proved against `Energy`.
  - `EnergyMeter` is a class whose fields are the globals, and whose methods update them in place.
  - `Database` is a class whose `SetDouble` appends each attempt and its answer to a log. The answer comes from a caller-chosen oracle `accepts`.
  - Every method's `ensures` ties the new fields and the writes it appends to the specification functions, which never look at the answers. The `ensures` also leave earlier log entries untouched and give each new entry the oracle's answer.

Time is a parameter. The source calls `millis()` three times on a pass that runs: in the gate (line 143), for the stamp (line 144) and in the accumulator (line 87). The model takes three readings, `gateNow`, `stampNow` and `accNow`, so the lemmas also cover the case where they differ. `Firebase.ready()`, `signupOK` and the EmonLib readings `Vrms` and `Irms` are inputs too. `double` is modelled as `real`.

Some consequences of the code as written:

- The 24-hour total is written under `path/24_hour_power`.
- The stamp is taken before any write (`src/main.cpp` line 144). So the gate measures from the last pass that passed it, whatever its writes answered.
- Window timestamps are 32-bit readings that wrap.
- The stamp value 0 also means "never sent". A pass stamped when `millis()` reads 0 (possible after a rollover) therefore leaves the gate open on the next pass (`Energy.ZeroStampReopensGate`). After any other stamp, a pass within 15000 ms of it does nothing (`Energy.SecondPassWithinIntervalIsNoOp`).

## Model

| member | source | states |
|---|---|---|
| `Clock.Elapsed` | src/main.cpp:90 | the 32-bit difference of two readings is the unique value in [0, 2^32) that carries the earlier one to the later one modulo 2^32; it is the plain difference without a wrap and `now + 2^32 - since` across one |
| `Clock.ElapsedAdvance` | src/main.cpp:87-90 | a reading taken `d < 2^32` ms after `t` is exactly `d` ms after `t` by the modular difference, whether or not the counter wrapped |
| `Clock.ElapsedUnique` | src/main.cpp:87-90 | any 32-bit `d` with `(since + d) mod 2^32 == now` is the modular difference, so the difference means real elapsed time |
| `Energy.PathInjective` | src/main.cpp:92-118 | the four keys go to four different database paths |
| `Energy.Boot` | src/main.cpp:27-34 | after the initialisers, the total is 0, the send stamp is 0 ("never sent") and the window starts at the clock reading taken at the end of setup |
| `Energy.AccumulateStep` | src/main.cpp:82-102 | the sample is added before the expiry test; on expiry exactly one write, `path/24_hour_power` with the old total plus the sample, then the total is 0 and the window starts at `now`; otherwise no write, the start is unchanged and the total grows by the sample; the send stamp is never touched |
| `Energy.PublishStep` | src/main.cpp:105-126 | the first three writes are current, power, voltage with their values in that order, and the rest is exactly one accumulate step with the same power |
| `Energy.LoopStep` | src/main.cpp:142-159 | when the gate is closed the pass changes nothing and writes nothing; when it is open the stamp becomes the stamp reading and the pass is one publish step of `amps * voltage` |
| `Energy.ExpiryBoundary` | src/main.cpp:90 | with the window opened at 0, the reading 86400000 expires it and 86399999 does not |
| `Energy.ExpiryAcrossRollover` | src/main.cpp:87-90 | for any window start and any delay shorter than a counter turn, the window expires exactly when the real delay is at least 86400000 ms |
| `Energy.ExpiryAfterWrap` | src/main.cpp:87-90 | a window opened 1000 ms before the wrap expires at reading 86399000 and not at 86398999 |
| `Energy.EmitOncePerWindow` | src/main.cpp:90-100 | after an expiry resets the window, a subsequent sample less than a day later emits nothing |
| `Energy.FirstPassRuns` | src/main.cpp:143 | right after boot, any pass with the database ready and signup done passes the gate, whatever the clock reads |
| `Energy.GateStrict` | src/main.cpp:143 | with a stamp set, an elapsed time of exactly 15000 ms keeps the gate closed |
| `Energy.SecondPassWithinIntervalIsNoOp` | src/main.cpp:143-144 | after a pass that ran and stamped a nonzero time, a pass at most 15000 ms after that stamp leaves the state unchanged and writes nothing |
| `Energy.ZeroStampReopensGate` | src/main.cpp:143-144 | a pass stamped at reading 0 leaves the gate open for the next pass with a ready database, however soon it comes |
| `Energy.PassWrites` | src/main.cpp:105-125 | a pass that runs writes current, power (the product of the readings) and voltage in that order, then at most one 24-hour write; that write happens exactly when the window expired and carries the old total plus this pass's power |
| `Energy.LoopStepConserves` | src/main.cpp:84-125 | in one pass, the power emitted as a 24-hour total plus the total left open equals the previous total plus the power published |
| `Energy.RunConserves` | src/main.cpp:84-159 | over any sequence of passes, the emitted 24-hour totals plus the open total equal the starting total plus all published power: no sample is lost or counted twice |
| `Energy.RunWithinWindow` | src/main.cpp:82-102 | when no accumulator reading reaches a day past the window start, a run emits no 24-hour total, keeps the window start, and leaves the total at the starting total plus the sum of the published power |
| `Firmware.Database.SetDouble` | src/main.cpp:106-122 | a write appends itself and the database's answer to the log and returns that answer |
| `Firmware.EnergyMeter.Setup` | src/main.cpp:128-140 | the new globals equal `Boot` of the setup-time clock reading |
| `Firmware.EnergyMeter.Calculate24HourPower` | src/main.cpp:82-102 | the new globals and the newly logged writes are exactly those of `AccumulateStep`, whatever the database answered; earlier log entries are unchanged and each new entry carries the database's answer |
| `Firmware.EnergyMeter.SendDataToFirebase` | src/main.cpp:105-126 | the new globals and the newly logged writes are exactly those of `PublishStep`, whatever each write's answer; earlier log entries are unchanged and each new entry carries the database's answer |
| `Firmware.EnergyMeter.Loop` | src/main.cpp:142-159 | the new globals and the newly logged writes are exactly those of `LoopStep`; earlier log entries are unchanged and each new entry carries the database's answer |

## Left out

- WiFi bring-up and its retry loop (`connectToWifi`) are network I/O through libraries outside this model.
- Firebase configuration and signup (`connectToDatabase`) are network I/O too. Their outcomes enter the model only as the inputs `ready` and `signupOK`.
- EmonLib's `calcVI`, `Vrms` and `Irms` are an external floating-point RMS computation. Voltage and current are inputs.
- LCD output, `String` formatting, `Serial` logging and `fbdo.errorReason()` are output side effects. They do not change any state the sketch reads back.
- Floating-point rounding is not modelled: `watt = amps * voltage` and the running `totalPower` are exact `real` arithmetic, not `double`.
- The `millis()` clock itself is not modelled. Each reading is a caller-supplied 32-bit value and the model does not require successive readings to increase.
- The database's transport, retries and timing are not modelled, only the answer each write gets.
