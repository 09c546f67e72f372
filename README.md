# monit-test: the connection monitor, modelled in Dafny

`monitor_uol.py` is a small FastAPI service that probes one HTTP endpoint
for at most two hours, sleeping five seconds after each probe, and keeps
every result in an in-memory list. Two module globals hold its state: `monitoring_data`, the
list of records, and `monitoring_active`, the flag the loop polls. Three
handlers act on them: start, stop and metrics.

This project models that core:

- `probe.dfy` (module `Probe`): the record a probe leaves behind.
  `Classify` turns a probe outcome into a record. A response gives
  `"success"` only for status 200 and keeps its code and response time. Any
  `requests.RequestException` gives `"failure"` with both fields null. `Consistent`
  is the invariant every such record keeps. `Outcome` recovers the outcome
  from a record. `ClassifyInjective` and `ConsistentIsClassified` prove
  that nothing is lost in either direction.
- `monitoring.dfy` (module `Monitoring`): the loop and the handlers.
  `Run` is the specification of one loop run: the records it appends,
  given the flag and a trace of ticks. A tick is one evaluation of the loop
  condition. It carries the clock reading, whether the stop handler cleared
  the flag since the last check, and the outcome of that iteration's probe.
  Class `Monitor` holds the two globals as fields `data` and `active`. Its
  `RunLoop` method is the `while` loop of `monitor_connection`, proved
  against `Run`.

Clock readings and response times are integer milliseconds. The two-hour
bound is 7 200 000 ms and the sleep is 5 000 ms.

Notes on what the code does:

- `start_monitoring` sets the flag and schedules a new loop on every call
  (monitor_uol.py:42-43). `Monitor.Start` models its effect on the flag.
- The flag starts out true (monitor_uol.py:11). The constructor leaves
  `active` true with an empty list.
- The only lifecycle state is that boolean flag.
- History is never cleared. A new start appends after the records already in
  the list (`StartAndRun`).

## Model

| member | source | states |
|---|---|---|
| `Probe.Classify` | monitor_uol.py:19-35 | A response record is a success exactly when its code is 200. It carries that response's code and response time. A transport exception gives a failure with null code and null time. Every record is `Consistent`. |
| `Probe.Outcome` | monitor_uol.py:23-35 | A record has a null status code exactly when it came from a transport exception. |
| `Probe.ClassifyInjective` | monitor_uol.py:23-35 | Classification is injective on outcomes: the outcome can be read back from its record. |
| `Probe.ConsistentIsClassified` | monitor_uol.py:23-35 | Every consistent record is the classification of its own outcome. |
| `Monitoring.Run` | monitor_uol.py:16-35 | A run appends at most one record per loop check, and every appended record is consistent. |
| `Monitoring.RunIsProbedPrefix` | monitor_uol.py:15-35 | A run appends, in order, the classified outcome of each tick before the first tick at which the time bound has passed, a stop was requested, or the flag was clear. At that first tick it stops. |
| `Monitoring.RunRespectsExitConditions` | monitor_uol.py:15-18 | With the flag clear at entry, nothing is appended. No record comes from a tick at or past 7200 seconds. |
| `Monitoring.RunAgainstUnreachableTarget` | monitor_uol.py:29-35 | If every probe raises a transport exception, every record of the run is a failure with null code and null time. |
| `Monitoring.SleepSpacedClock` | monitor_uol.py:15-36 | If each iteration sleeps five seconds, the i-th loop check happens at least 5·i seconds after the start. |
| `Monitoring.RunProbeBound` | monitor_uol.py:15-36 | If each iteration sleeps five seconds, one run makes at most 1440 probes. |
| `Monitoring.Monitor.constructor` | monitor_uol.py:9-11 | At import the list is empty and the flag is set. |
| `Monitoring.Monitor.Start` | monitor_uol.py:39-43 | The start handler sets the flag and leaves the list unchanged. |
| `Monitoring.Monitor.Stop` | monitor_uol.py:46-50 | The stop handler clears the flag and leaves the list unchanged. |
| `Monitoring.Monitor.Metrics` | monitor_uol.py:52-54 | The metrics handler returns the list itself, and every record in it is consistent. |
| `Monitoring.Monitor.ProbeOnce` | monitor_uol.py:19-35 | One probe appends exactly one record, its classified outcome, at the end of the list. Earlier records and the flag are unchanged. |
| `Monitoring.Monitor.RunLoop` | monitor_uol.py:13-37 | The loop leaves the earlier records in place and appends exactly `Run` of the flag and the trace. The record invariant is kept. The flag is clear afterwards, whichever condition ended the loop. |
| `Monitoring.Monitor.StartAndRun` | monitor_uol.py:13-43 | A start followed by its scheduled loop keeps the existing history and appends the run's records. The flag is clear at the end. |

## Left out

- The HTML/JavaScript dashboard (`read_root`, monitor_uol.py:56-123) is user interface, not logic.
- FastAPI routing, the handlers' confirmation messages and `BackgroundTasks` scheduling are framework plumbing. Start is modelled only by its effect on the flag. The loop it schedules is `RunLoop`, run on its own (`StartAndRun`).
- The HTTP request (`requests.get` with a 5-second timeout) is not modelled. Its result is the `ProbeOutcome` input of each tick.
- `time.time()` and `time.sleep(5)` are not modelled. The clock readings are inputs, one per loop check. The sleep shows up only as the `SleepSpaced` hypothesis of `RunProbeBound`.
- `time.strftime` timestamps are opaque string inputs.
- The response time is a natural number of milliseconds. The source rounds a float difference of seconds to three decimals; the float arithmetic is not modelled.
- Monitoring.Monitor.RunLoop: exceptions other than `requests.RequestException` are not modelled. Raised in the try body (monitor_uol.py:20-28) or by the sleep (line 36), such an exception would leave the loop without appending a record and without clearing the flag (line 37 never runs). The model's `ensures !active` holds only for the two normal exits.
- Monitoring.Monitor.RunLoop: requires the trace to reach a clock reading two hours after the start. A finite trace stands in for a clock that keeps advancing; this guarantees that the loop ends by one of its own two conditions.
- Concurrency is not modelled. This covers races between the handlers and a running loop, a second start spawning a duplicate loop, and one loop's final `monitoring_active = False` halting a newer loop. A stop request during a run is modelled sequentially: a tick's `stopRequested` bit clears the flag just before that iteration's check. A start request arriving during a run is not modelled.
