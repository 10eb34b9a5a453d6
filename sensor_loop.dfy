/**
 * The acquisition loop of the discovery variant: read the sensor, publish one
 * JSON state message, then either sleep for the configured period (daemon
 * mode) or return (one-shot mode). A failed read is followed by a fixed
 * cooldown and a retry.
 *
 * The loop is guarded by `error_count < max_errors`, but `error_count` starts
 * at 0 and is only ever reset to 0, so the guard can end the loop only before
 * its first pass, when `max_errors <= 0`.
 */
module SensorLoop {
  import opened Text
  import opened Messages
  import opened Events
  import Announcement

  const DefaultDaemonEnabled := true
  const DefaultSleepPeriod := 120
  const DefaultMaxErrors := 5
  /** Cooldown after a failed read. */
  const ReadRetryDelay: real := 10.0
  /** Slack after a publish that returned normally. */
  const PublishSlack: real := 0.5

  datatype Config = Config(
    daemonEnabled: bool,
    sleepPeriod: nat,
    maxErrors: int,
    sensorName: string,
    baseTopic: string)

  /** The loop's settings when the configuration file gives none. */
  function DefaultConfig(sensorName: string, baseTopic: string): Config {
    Config(DefaultDaemonEnabled, DefaultSleepPeriod, DefaultMaxErrors, sensorName, baseTopic)
  }

  /** The state message for one reading (QoS 0, not retained: the client's defaults). */
  function StateMessage(cfg: Config, temperature: Float, humidity: Float): (m: Message)
    ensures m.qos == 0 && !m.retain && IsLowerCase(m.topic)
    ensures m.payload.Object?
    ensures Get(m.payload.fields, "temperature") == Some(JNum(temperature))
    ensures Get(m.payload.fields, "humidity") == Some(JNum(humidity))
  {
    Message(Lower(cfg.baseTopic + "/sensor/" + cfg.sensorName + "/state"),
            Object([("temperature", JNum(temperature)), ("humidity", JNum(humidity))]),
            0, false)
  }

  /** The publish call and, when it returns normally, the slack after it. */
  function PublishEvents(cfg: Config, temperature: Float, humidity: Float, pub: PubOutcome): seq<Event> {
    var m := StateMessage(cfg, temperature, humidity);
    if pub == PubOk then [Publish([m], true), Sleep(PublishSlack)] else [Publish([m], false)]
  }

  /**
   * The events of one pass through the loop body: only a successful read
   * publishes, its state message comes first, and only a successful read in
   * one-shot mode returns.
   */
  function Block(cfg: Config, a: Attempt): (b: seq<Event>)
    ensures a.ReadFail? ==> b == [Sleep(ReadRetryDelay)]
    ensures a.ReadFail? ==> forall e :: e in b ==> !e.Publish?
    ensures a.ReadOk? ==> 0 < |b| && b[0] == Publish([StateMessage(cfg, a.temperature, a.humidity)], a.publish == PubOk)
    ensures Stop in b <==> a.ReadOk? && !cfg.daemonEnabled
    ensures a.ReadOk? ==> b[|b| - 1] == if cfg.daemonEnabled then Sleep(cfg.sleepPeriod as real) else Stop
  {
    match a
    case ReadFail => [Sleep(ReadRetryDelay)]
    case ReadOk(t, h, pub) =>
      PublishEvents(cfg, t, h, pub) + (if cfg.daemonEnabled then [Sleep(cfg.sleepPeriod as real)] else [Stop])
  }

  /** What the loop emits and how many attempts of the trace it consumes. */
  datatype Run = Run(events: seq<Event>, consumed: nat)

  /**
   * The loop as a state machine from the error count `errorCount`. A
   * successful pass resets the count, a failed read leaves it alone. When the
   * trace runs out while the loop is still running, the run ends without
   * `Stop`: the program would be waiting in its next read.
   */
  function Loop(cfg: Config, errorCount: int, trace: seq<Attempt>): (r: Run)
    ensures r.consumed <= |trace|
    decreases |trace|
  {
    if errorCount >= cfg.maxErrors then Run([Stop], 0)
    else if trace == [] then Run([], 0)
    else if trace[0].ReadOk? && !cfg.daemonEnabled then Run(Block(cfg, trace[0]), 1)
    else
      var rest := Loop(cfg, if trace[0].ReadOk? then 0 else errorCount, trace[1..]);
      Run(Block(cfg, trace[0]) + rest.events, rest.consumed + 1)
  }

  /** `sensor_loop` over a trace of outcomes. */
  method RunSensorLoop(cfg: Config, trace: seq<Attempt>) returns (events: seq<Event>, consumed: nat)
    ensures events == Loop(cfg, 0, trace).events
    ensures consumed == Loop(cfg, 0, trace).consumed
  {
    var errorCount := 0;
    var pending := trace;
    events, consumed := [], 0;
    while errorCount < cfg.maxErrors
      invariant consumed + |pending| == |trace|
      invariant errorCount == 0
      invariant Loop(cfg, 0, trace).events == events + Loop(cfg, errorCount, pending).events
      invariant Loop(cfg, 0, trace).consumed == consumed + Loop(cfg, errorCount, pending).consumed
      decreases |pending|
    {
      if pending == [] {
        // The trace is exhausted while the loop is still running.
        return;
      }
      var attempt := pending[0];
      ghost var later := Loop(cfg, 0, pending[1..]).events;
      pending, consumed := pending[1..], consumed + 1;
      if attempt.ReadFail? {
        AppendAssoc(events, [Sleep(ReadRetryDelay)], later);
        events := events + [Sleep(ReadRetryDelay)];
        continue;
      }
      // the events of this pass
      var pass: seq<Event>;
      var msg := StateMessage(cfg, attempt.temperature, attempt.humidity);
      if attempt.publish == PubOk {
        pass := [Publish([msg], true), Sleep(PublishSlack)];
      } else {
        // The publish error is logged and swallowed.
        pass := [Publish([msg], false)];
      }
      if cfg.daemonEnabled {
        errorCount := 0;
        pass := pass + [Sleep(cfg.sleepPeriod as real)];
        AppendAssoc(events, pass, later);
        events := events + pass;
      } else {
        AppendAssoc(events, pass, [Stop]);
        events := events + pass;
        break;
      }
    }
    events := events + [Stop];
  }

  /** `n` cooldowns in a row. */
  function Retries(n: nat): seq<Event> {
    if n == 0 then [] else [Sleep(ReadRetryDelay)] + Retries(n - 1)
  }

  /** The events of consecutive passes. */
  function Blocks(cfg: Config, trace: seq<Attempt>): seq<Event> {
    if trace == [] then [] else Block(cfg, trace[0]) + Blocks(cfg, trace[1..])
  }

  /** The state-message batches of a sequence of readings. */
  function StateBatches(cfg: Config, readings: seq<(Float, Float)>): seq<seq<Message>> {
    if readings == [] then []
    else [[StateMessage(cfg, readings[0].0, readings[0].1)]] + StateBatches(cfg, readings[1..])
  }

  /** With `max_errors <= 0` the loop body never runs. */
  lemma NoPassWhenMaxErrorsNonPositive(cfg: Config, trace: seq<Attempt>)
    requires cfg.maxErrors <= 0
    ensures Loop(cfg, 0, trace) == Run([Stop], 0)
  {
  }

  /**
   * Otherwise the events are the passes over the consumed attempts, one after
   * the other: a failed read gives exactly one cooldown and no publish, a
   * successful one its publish followed by the period sleep or `Stop`. The
   * loop consumes the whole trace unless a one-shot pass ends it.
   */
  lemma {:induction false} LoopIsBlockwise(cfg: Config, trace: seq<Attempt>)
    requires 0 < cfg.maxErrors
    ensures var r := Loop(cfg, 0, trace);
      && r.events == Blocks(cfg, trace[..r.consumed])
      && (r.consumed == |trace| || (!cfg.daemonEnabled && trace[r.consumed - 1].ReadOk?))
    decreases |trace|
  {
    var r := Loop(cfg, 0, trace);
    if trace != [] {
      var rest := Loop(cfg, 0, trace[1..]);
      LoopIsBlockwise(cfg, trace[1..]);
      assert trace[..r.consumed][1..] == trace[1..][..r.consumed - 1];
      if trace[0].ReadOk? && !cfg.daemonEnabled {
        assert trace[..r.consumed][1..] == [];
      } else if trace[0].ReadOk? {
        assert r.events == Block(cfg, trace[0]) + rest.events;
      }
    }
  }

  /** In daemon mode the loop never stops: it consumes every attempt. */
  lemma {:induction false} DaemonNeverStops(cfg: Config, trace: seq<Attempt>)
    requires cfg.daemonEnabled && 0 < cfg.maxErrors
    ensures Loop(cfg, 0, trace).consumed == |trace|
    ensures Stop !in Loop(cfg, 0, trace).events
    decreases |trace|
  {
    if trace != [] {
      DaemonNeverStops(cfg, trace[1..]);
    }
  }

  /**
   * However many reads fail in a row, the loop only cools down and retries:
   * no publish, no stop.
   */
  lemma {:induction false} FailuresOnlyRetry(cfg: Config, trace: seq<Attempt>)
    requires 0 < cfg.maxErrors
    requires forall i :: 0 <= i < |trace| ==> trace[i].ReadFail?
    ensures Loop(cfg, 0, trace) == Run(Retries(|trace|), |trace|)
    decreases |trace|
  {
    if trace != [] {
      assert forall i :: 0 <= i < |trace| - 1 ==> trace[1..][i] == trace[i + 1];
      FailuresOnlyRetry(cfg, trace[1..]);
    }
  }

  /**
   * In one-shot mode the loop retries until the first successful read,
   * publishes it and stops: a second pass never begins.
   */
  lemma {:induction false} OneShotStopsAfterFirstSuccess(cfg: Config, trace: seq<Attempt>, k: nat)
    requires !cfg.daemonEnabled && 0 < cfg.maxErrors
    requires k < |trace| && trace[k].ReadOk?
    requires forall i :: 0 <= i < k ==> trace[i].ReadFail?
    ensures Loop(cfg, 0, trace)
         == Run(Retries(k)
                  + PublishEvents(cfg, trace[k].temperature, trace[k].humidity, trace[k].publish)
                  + [Stop],
                k + 1)
    decreases k
  {
    if k > 0 {
      assert forall i :: 0 <= i < k - 1 ==> trace[1..][i] == trace[i + 1];
      OneShotStopsAfterFirstSuccess(cfg, trace[1..], k - 1);
    }
  }

  /**
   * The loop publishes one state message per successful read it consumes, in
   * order, each carrying the temperature and the humidity of that same read;
   * nothing is published without a successful read.
   */
  lemma {:induction false} PublishesExactlyTheReadings(cfg: Config, trace: seq<Attempt>)
    ensures var r := Loop(cfg, 0, trace);
      Batches(r.events) == StateBatches(cfg, Readings(trace[..r.consumed]))
    decreases |trace|
  {
    var r := Loop(cfg, 0, trace);
    if 0 < cfg.maxErrors && trace != [] {
      var rest := Loop(cfg, 0, trace[1..]);
      var done := trace[..r.consumed];
      PublishesExactlyTheReadings(cfg, trace[1..]);
      BlockBatches(cfg, trace[0]);
      assert done[0] == trace[0];
      var first := if trace[0].ReadOk? then [(trace[0].temperature, trace[0].humidity)] else [];
      assert Readings(done) == first + Readings(done[1..]);
      StateBatchesAppend(cfg, first, Readings(done[1..]));
      if trace[0].ReadOk? && !cfg.daemonEnabled {
        assert done[1..] == [];
      } else {
        assert done[1..] == trace[1..][..rest.consumed];
        BatchesAppend(Block(cfg, trace[0]), rest.events);
      }
    }
  }

  /** A pass publishes one state message with the values read, or nothing when the read failed. */
  lemma BlockBatches(cfg: Config, a: Attempt)
    ensures Batches(Block(cfg, a))
         == if a.ReadOk? then [[StateMessage(cfg, a.temperature, a.humidity)]] else []
  {
    var b := Block(cfg, a);
    if a.ReadOk? {
      assert b[0].Publish? && b[0].batch == [StateMessage(cfg, a.temperature, a.humidity)];
      assert forall i :: 1 <= i < |b| ==> !b[i].Publish?;
      NoBatches(b[1..]);
    } else {
      assert b[1..] == [];
    }
  }

  lemma {:induction false} NoBatches(events: seq<Event>)
    requires forall i :: 0 <= i < |events| ==> !events[i].Publish?
    ensures Batches(events) == []
  {
    if events != [] {
      NoBatches(events[1..]);
    }
  }

  lemma {:induction false} StateBatchesAppend(cfg: Config, a: seq<(Float, Float)>, b: seq<(Float, Float)>)
    ensures StateBatches(cfg, a + b) == StateBatches(cfg, a) + StateBatches(cfg, b)
  {
    if a == [] {
      assert a + b == b;
    } else {
      assert (a + b)[1..] == a[1..] + b;
      StateBatchesAppend(cfg, a[1..], b);
    }
  }

  /**
   * A publish failure is swallowed: it only drops the slack after the
   * publish; what the loop does afterwards is the same.
   */
  lemma PublishFailureOnlySkipsSlack(cfg: Config, t: Float, h: Float, rest: seq<Attempt>)
    requires 0 < cfg.maxErrors
    ensures var ok := Loop(cfg, 0, [ReadOk(t, h, PubOk)] + rest);
      var failed := Loop(cfg, 0, [ReadOk(t, h, PubFail)] + rest);
      && ok.consumed == failed.consumed
      && failed.events[0] == Publish([StateMessage(cfg, t, h)], false)
      && ok.events == [Publish([StateMessage(cfg, t, h)], true), Sleep(PublishSlack)] + failed.events[1..]
  {
    var okTrace, failedTrace := [ReadOk(t, h, PubOk)] + rest, [ReadOk(t, h, PubFail)] + rest;
    assert okTrace[1..] == rest && failedTrace[1..] == rest;
    var m := StateMessage(cfg, t, h);
    var after := if cfg.daemonEnabled then [Sleep(cfg.sleepPeriod as real)] else [Stop];
    var tail := if cfg.daemonEnabled then after + Loop(cfg, 0, rest).events else after;
    assert Block(cfg, okTrace[0]) == [Publish([m], true), Sleep(PublishSlack)] + after;
    assert Block(cfg, failedTrace[0]) == [Publish([m], false)] + after;
    assert Loop(cfg, 0, okTrace).events == [Publish([m], true), Sleep(PublishSlack)] + tail;
    assert Loop(cfg, 0, failedTrace).events == [Publish([m], false)] + tail;
  }

  /**
   * The topic the loop publishes to is the state topic written into both
   * announced payloads, and it is lower case.
   */
  lemma StateTopicIsAnnounced(cfg: Config, t: Float, h: Float)
    ensures var topic := StateMessage(cfg, t, h).topic;
      && topic == Announcement.StateTopic(cfg.sensorName, cfg.baseTopic)
      && Get(Announcement.TemperaturePayload(cfg.sensorName, cfg.baseTopic), "state_topic") == Some(JStr(topic))
      && Get(Announcement.HumidityPayload(cfg.sensorName, cfg.baseTopic), "state_topic") == Some(JStr(topic))
      && IsLowerCase(topic)
  {
  }

  /** The state payload has exactly the keys `temperature` and `humidity`, holding the read values. */
  lemma StatePayloadHoldsTheReading(cfg: Config, t: Float, h: Float)
    ensures var d := StateMessage(cfg, t, h).payload.fields;
      && Keys(d) == ["temperature", "humidity"]
      && Get(d, "temperature") == Some(JNum(t))
      && Get(d, "humidity") == Some(JNum(h))
  {
  }

  /**
   * Three failed reads in a row with `MAX_ERRORS = 3` do not end the loop:
   * it cools down after each and is still running.
   */
  lemma ThreeFailuresDoNotAbort(sensorName: string, baseTopic: string)
    ensures var cfg := Config(true, 5, 3, sensorName, baseTopic);
      Loop(cfg, 0, [ReadFail, ReadFail, ReadFail])
        == Run([Sleep(ReadRetryDelay), Sleep(ReadRetryDelay), Sleep(ReadRetryDelay)], 3)
  {
  }

  /**
   * Two successful reads in daemon mode with a period of 5 seconds: two state
   * messages, with the period sleep between them.
   */
  lemma TwoReadingsInDaemonMode(sensorName: string, baseTopic: string, t1: Float, h1: Float, t2: Float, h2: Float)
    ensures var cfg := Config(true, 5, DefaultMaxErrors, sensorName, baseTopic);
      Loop(cfg, 0, [ReadOk(t1, h1, PubOk), ReadOk(t2, h2, PubOk)])
        == Run([Publish([StateMessage(cfg, t1, h1)], true), Sleep(PublishSlack), Sleep(5.0),
                Publish([StateMessage(cfg, t2, h2)], true), Sleep(PublishSlack), Sleep(5.0)], 2)
  {
    var cfg := Config(true, 5, DefaultMaxErrors, sensorName, baseTopic);
    var trace := [ReadOk(t1, h1, PubOk), ReadOk(t2, h2, PubOk)];
    var b1 := [Publish([StateMessage(cfg, t1, h1)], true), Sleep(PublishSlack), Sleep(5.0)];
    var b2 := [Publish([StateMessage(cfg, t2, h2)], true), Sleep(PublishSlack), Sleep(5.0)];
    assert trace[1..] == [ReadOk(t2, h2, PubOk)];
    assert trace[1..][1..] == [];
    assert Block(cfg, trace[0]) == b1 && Block(cfg, trace[1]) == b2;
    assert Loop(cfg, 0, trace[1..]) == Run(b2 + [], 1);
  }

  /**
   * With the default settings (daemon on, a period of 120 seconds, the
   * `homeassistant` base topic), a successful read publishes on
   * `homeassistant/sensor/<name>/state`, lower-cased, and sleeps 120 seconds.
   */
  lemma DefaultDaemonPass(sensorName: string, t: Float, h: Float)
    ensures var cfg := DefaultConfig(sensorName, Announcement.DefaultBaseTopic);
      && Loop(cfg, 0, [ReadOk(t, h, PubOk)])
           == Run([Publish([StateMessage(cfg, t, h)], true), Sleep(PublishSlack), Sleep(120.0)], 1)
      && StateMessage(cfg, t, h).topic == Lower("homeassistant/sensor/" + sensorName + "/state")
  {
    var cfg := DefaultConfig(sensorName, Announcement.DefaultBaseTopic);
    assert [ReadOk(t, h, PubOk)][1..] == [];
    assert cfg.baseTopic + "/sensor/" + sensorName + "/state" == "homeassistant/sensor/" + sensorName + "/state";
    assert Loop(cfg, 0, [ReadOk(t, h, PubOk)]) == Run(Block(cfg, ReadOk(t, h, PubOk)) + [], 1);
  }
}
