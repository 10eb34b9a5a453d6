# DHT22 to MQTT bridge: a Dafny model of its acquisition loops

The bridge reads temperature and humidity from a DHT22 sensor and publishes
them to an MQTT broker. The repository holds two scripts:

- `dht22_mqtt.py`, the discovery variant. It announces the sensor to a
  home-automation hub with two retained configuration messages. Then it runs
  `sensor_loop`: read the sensor, publish one JSON state message, and either
  sleep for the configured period (daemon mode) or return (one-shot mode).
- `dht22-mqtt.py`, the simple variant. It waits 10 seconds, creates the
  sensor driver, and loops forever. Each successful read publishes two bare
  numeric messages (temperature, then humidity) and sleeps for the check
  interval.

The model has these parts:

- `Text`: ASCII lower-casing, with its laws.
- `Messages`: broker messages. JSON objects are key/value lists kept in
  insertion order. `Put` models Python's `d[k] = v`.
- `Announcement`: the payloads and topics of `service_announcement`, and the
  lower-casing that `main` applies to the base topic and sensor name.
- `Events`: the abstract interface shared by both loops. The sensor and broker
  become a finite trace of `Attempt`s. Each attempt is a failed read, or a
  successful read plus the outcome of the publish that follows it. The loop's
  effects (publish calls, sleeps, sensor creation, returning) become a trace of
  `Event`s.
- `SensorLoop`: `sensor_loop`, as an imperative method (`RunSensorLoop`) with
  the source's mutable `error_count`, `continue` and `break`. It is proved equal
  to a state-machine definition (`Loop`), and the lemmas are proved about that
  definition.
- `SimpleService`: the top-level `while True` loop of the simple variant, as
  a method (`RunService`) proved equal to a fold of the per-pass step function
  `Step`.

A trace is finite, so a run can end because the trace is used up. In that
case no `Stop` event is emitted: the program would still be waiting in its
next read.

In `sensor_loop` as written, `error_count` starts at 0 and is only ever reset
to 0. It is never incremented. So the guard `error_count < max_errors` can end
the loop only before its first pass, when `max_errors <= 0`. There is no abort
after repeated failed reads, even though the variable names suggest one. The
model follows the code: `ThreeFailuresDoNotAbort` shows three failures with
`MAX_ERRORS = 3` leaving the loop running.

## Model

| member | source | states |
|---|---|---|
| `Text.Lower` | dht22_mqtt.py:111 | `Lower` keeps the length and folds each character on its own: ASCII capitals become small letters, everything else is unchanged |
| `Text.LowerIsLowerCase` | dht22_mqtt.py:119 | every lower-cased string has no capital left |
| `Text.LowerFixesExactlyLowerCase` | dht22_mqtt.py:177-178 | lower-casing changes nothing exactly when the string is already lower case |
| `Text.LowerIdempotent` | dht22_mqtt.py:177-178 | lower-casing twice gives the same result as lower-casing once |
| `Text.LowerAppend` | dht22_mqtt.py:155 | lower-casing a concatenation gives the same string as lower-casing each part and concatenating them |
| `Messages.Put` | dht22_mqtt.py:114-118 | dict key assignment: a new key is appended at the end; an existing key keeps its position; the key now maps to the new value; other keys' lookups are unchanged |
| `Announcement.TemperaturePayload` | dht22_mqtt.py:110-118 | the temperature payload is exactly `state_topic`, `unit_of_measurement`='°C', `value_template`='{{ value_json.temperature }}', `name`='<name> Temperature', `device_class`='temperature', in that order |
| `Announcement.HumidityPayload` | dht22_mqtt.py:122-125 | the humidity payload is a fresh copy of the base with '%', '{{ value_json.humidity }}' and '<name> Humidity', in that order, and nothing else |
| `Announcement.StateTopic` | dht22_mqtt.py:109-111 | the shared state topic is lower case |
| `Announcement.ConfigTopic` | dht22_mqtt.py:119-127 | a configuration topic is lower case |
| `Announcement.Announce` | dht22_mqtt.py:102-127 | `service_announcement` publishes exactly two messages, each QoS 1, retained, on a lower-case topic |
| `Announcement.AnnouncementShape` | dht22_mqtt.py:119-127 | exactly two messages, temperature first, both QoS 1 and retained, on `lower("<base>/sensor/<name>/<name>_temperature/config")` carrying the temperature payload and `lower(".../<name>_humidity/config")` carrying the humidity payload |
| `Announcement.AnnouncedTopicsAreLowerCase` | dht22_mqtt.py:109-126 | both configuration topics and the state topic are lower case, whatever the casing of the inputs |
| `Announcement.TemperatureFields` | dht22_mqtt.py:110-118 | the temperature payload's keys in order; its `state_topic` is the shared state topic; its `name` uses the sensor name as given, not lower-cased; it has `device_class` 'temperature' |
| `Announcement.HumidityFields` | dht22_mqtt.py:110-125 | the humidity payload's keys in order; the same `state_topic`; `name` uses the sensor name as given; it has no `device_class` |
| `Announcement.ConfigTopicOfLowered` | dht22_mqtt.py:119 | lower-casing the base topic and sensor name beforehand does not change a configuration topic |
| `Announcement.StateTopicOfLowered` | dht22_mqtt.py:111 | lower-casing the base topic and sensor name beforehand does not change the state topic |
| `Announcement.PreLoweringKeepsTopics` | dht22_mqtt.py:177-187 | with `main`'s pre-lowering, every announced topic is the same as without it; only the `name` fields become `lower(name) + " Temperature"` / `" Humidity"` |
| `SensorLoop.StateMessage` | dht22_mqtt.py:153-156 | the state message is QoS 0, not retained, on a lower-case topic, and its JSON holds the temperature and the humidity read |
| `SensorLoop.Block` | dht22_mqtt.py:144-170 | one pass: a failed read gives exactly the 10 s cooldown and publishes nothing; a successful read first publishes its state message, recording whether the publish raised, and ends with the period sleep (daemon) or `Stop` (one-shot); the pass returns exactly when the read succeeded in one-shot mode |
| `SensorLoop.Loop` | dht22_mqtt.py:141-170 | the loop never consumes more read attempts than the trace holds |
| `SensorLoop.RunSensorLoop` | dht22_mqtt.py:129-170 | the imperative loop emits exactly the events of `Loop` from `error_count = 0` and consumes the same number of attempts; its invariant shows `error_count` stays 0 |
| `SensorLoop.NoPassWhenMaxErrorsNonPositive` | dht22_mqtt.py:141-142 | with `max_errors <= 0` the body never runs: nothing is read or published and the loop returns at once |
| `SensorLoop.LoopIsBlockwise` | dht22_mqtt.py:142-170 | with `max_errors > 0`, the events are the consumed passes in order. A failed read gives exactly one 10 s cooldown and no publish. A successful read gives its publish, then the period sleep (daemon) or `Stop` (one-shot). The whole trace is consumed unless a one-shot success ended the loop |
| `SensorLoop.DaemonNeverStops` | dht22_mqtt.py:141-167 | in daemon mode with `max_errors > 0` the loop never returns: every attempt is consumed and no `Stop` is emitted |
| `SensorLoop.FailuresOnlyRetry` | dht22_mqtt.py:144-152 | any number of consecutive failed reads gives only cooldowns: no publish and no exit |
| `SensorLoop.OneShotStopsAfterFirstSuccess` | dht22_mqtt.py:142-170 | in one-shot mode the loop retries until the first successful read, publishes it, and stops; a second pass never begins |
| `SensorLoop.PublishesExactlyTheReadings` | dht22_mqtt.py:146-156 | one state message per consumed successful read, in order, each holding that same read's temperature and humidity; nothing is published without a successful read |
| `SensorLoop.PublishFailureOnlySkipsSlack` | dht22_mqtt.py:154-163 | a publish that raises is swallowed. The only difference from a successful publish is the missing 0.5 s slack; everything after it, and the attempts consumed, are the same |
| `SensorLoop.StateTopicIsAnnounced` | dht22_mqtt.py:155 | the loop's state topic equals the `state_topic` of both announced payloads, `lower("<base>/sensor/<name>/state")`, and it is lower case |
| `SensorLoop.StatePayloadHoldsTheReading` | dht22_mqtt.py:153-156 | the state JSON has exactly the keys `temperature` and `humidity`, holding the values read |
| `SensorLoop.ThreeFailuresDoNotAbort` | dht22_mqtt.py:141-152 | three failed reads with `MAX_ERRORS = 3` in daemon mode give three cooldowns and the loop is still running |
| `SensorLoop.TwoReadingsInDaemonMode` | dht22_mqtt.py:153-167 | two successful reads with a period of 5 s give two state messages with a 5 s sleep after each |
| `SensorLoop.DefaultDaemonPass` | dht22_mqtt.py:138-167 | with the defaults (daemon on, `PERIOD` 120, base topic `homeassistant`) a successful read publishes on `lower("homeassistant/sensor/<name>/state")`, then the 0.5 s slack and a 120 s sleep |
| `SimpleService.ReadingMessages` | dht22-mqtt.py:58-67 | two messages, QoS 0 and not retained: the temperature on `<topic>/temperature`, then the humidity on `<topic>/humidity`, topics not lower-cased |
| `SimpleService.Step` | dht22-mqtt.py:40-77 | one pass never returns or creates the sensor; a failed read publishes nothing; a successful read first publishes its two messages, recording whether the publish raised, and ends with the check-interval sleep |
| `SimpleService.RunService` | dht22-mqtt.py:31-77 | the script emits one 10 s startup sleep, then creates the sensor, then runs one pass per attempt. It never emits `Stop`, and it never creates the sensor again |
| `SimpleService.StepShape` | dht22-mqtt.py:40-77 | a failed read publishes nothing and gives exactly one 10 s cooldown; a successful read gives one publish of its two messages, then the check-interval sleep |
| `SimpleService.NeverStops` | dht22-mqtt.py:37-77 | the loop has no exit: no pass emits `Stop` or creates the sensor |
| `SimpleService.PublishesEveryReading` | dht22-mqtt.py:43-71 | one publish call per successful read, in order, with `<topic>/temperature` (payload `str(temperature)`) then `<topic>/humidity` (payload `str(humidity)`), both from that same read, topics not lower-cased |
| `SimpleService.PublishIsFollowedBySleep` | dht22-mqtt.py:69-77 | every publish is immediately followed by the check-interval sleep, whether or not it succeeded |
| `SimpleService.PublishOutcomeNeverChangesControl` | dht22-mqtt.py:69-77 | two traces with the same reads give the same events, whatever their publish outcomes, apart from the outcome recorded on each publish event: a failed publish never ends or changes the loop |
| `SimpleService.DefaultReading` | dht22-mqtt.py:58-77 | with the default topic `home/livingroom` and check interval 10, a successful read publishes on `home/livingroom/temperature` and `home/livingroom/humidity`, then sleeps 10 s |

## Left out

- Configuration plumbing: `get_config`, `argparse`, `ConfigParser` and the environment lookups. Their values arrive as `Config` fields. Only the defaults are kept as constants (daemon on, period 120, `MAX_ERRORS` 5, base topic `homeassistant`; check interval 10, topic `home/livingroom`).
- The default sensor name built from `socket.gethostname()`: it depends on the host.
- `connect_to_mqtt` and `on_connect`: TLS, credentials, the client's background network thread, the 1 s settle sleep, and `sys.exit(1)` from a callback thread are library and concurrency behaviour.
- The rest of `main` in the discovery variant (connect, create the sensor, announce, run the loop) is not modelled as one sequence. Only its lower-casing of the base topic and sensor name is modelled.
- The DHT22 driver and GPIO timing: each read is an opaque outcome. A read that hangs forever is not modelled.
- Broker behaviour of `client.publish` and `publish.multiple`: each publish is an opaque success or failure. QoS 0 and no retain are those calls' defaults when no QoS or retain is given.
- The announcement's publishes have no error handling in the code. The model gives the announcement as the list of messages it publishes, not as calls that can fail.
- Float rendering by `str` and `json.dumps`: values are opaque numbers, and JSON is an ordered key/value list, not bytes.
- Logging (including `coloredlogger`) and real time: sleeps are events, not delays.
- Text.Lower: folds only ASCII `A`-`Z`; Python's `str.lower` also folds non-ASCII capitals, and for some of them changes the length (`'İ'.lower()` is two code points).
- SensorLoop.RunSensorLoop: the period is a `nat`. A negative `PERIOD` makes `sleep` raise `ValueError`, which the code does not catch; that crash is not modelled.
- SimpleService.RunService: the check interval is a `nat`. A negative `DHT22_CHECK_EVERY` makes `time.sleep` raise `ValueError`; that crash is not modelled.
- Process exit codes and signals.
