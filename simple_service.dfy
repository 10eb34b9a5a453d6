/**
 * The simple variant: after a startup delay and the sensor's creation, read
 * the sensor forever; a failed read cools down and retries, a successful one
 * publishes temperature and humidity as two bare numeric messages in one
 * call and then sleeps for the check interval. There is no exit path.
 */
module SimpleService {
  import opened Messages
  import opened Events

  const DefaultCheckEvery := 10
  const DefaultTopic := "home/livingroom"
  /** Delay before the sensor driver is created. */
  const StartupDelay: real := 10.0
  /** Cooldown after a failed read. */
  const RetryDelay: real := 10.0

  datatype Config = Config(topic: string, checkEvery: nat)

  /**
   * The two messages of one reading, topics used as configured and not
   * lower-cased (QoS 0, not retained: the defaults of a message given only a
   * topic and a payload).
   */
  function ReadingMessages(cfg: Config, temperature: Float, humidity: Float): (ms: seq<Message>)
    ensures |ms| == 2 && ms[0].topic != ms[1].topic
    ensures ms[0].topic == cfg.topic + "/temperature" && ms[1].topic == cfg.topic + "/humidity"
    ensures forall m :: m in ms ==> m.qos == 0 && !m.retain && cfg.topic + "/" <= m.topic
    ensures ms[0].payload == NumberText(temperature) && ms[1].payload == NumberText(humidity)
  {
    [Message(cfg.topic + "/temperature", NumberText(temperature), 0, false),
     Message(cfg.topic + "/humidity", NumberText(humidity), 0, false)]
  }

  /**
   * The events of one pass through the loop body: only a successful read
   * publishes, and its publish comes first and the check-interval sleep last;
   * no pass returns or creates the sensor.
   */
  function Step(cfg: Config, a: Attempt): (s: seq<Event>)
    ensures Stop !in s && InitSensor !in s
    ensures a.ReadFail? ==> forall e :: e in s ==> !e.Publish?
    ensures a.ReadOk? ==> (0 < |s| && s[0] == Publish(ReadingMessages(cfg, a.temperature, a.humidity), a.publish == PubOk)
                           && s[|s| - 1] == Sleep(cfg.checkEvery as real))
  {
    match a
    case ReadFail => [Sleep(RetryDelay)]
    case ReadOk(t, h, pub) =>
      [Publish(ReadingMessages(cfg, t, h), pub == PubOk), Sleep(cfg.checkEvery as real)]
  }

  /** What one pass hands to the broker, with and without the publish outcome. */
  lemma StepShape(cfg: Config, a: Attempt)
    ensures Batches(Step(cfg, a))
         == if a.ReadOk? then [ReadingMessages(cfg, a.temperature, a.humidity)] else []
    ensures Erase(Step(cfg, a))
         == if a.ReadOk? then [Publish(ReadingMessages(cfg, a.temperature, a.humidity), true),
                               Sleep(cfg.checkEvery as real)]
            else [Sleep(RetryDelay)]
  {
    var s := Step(cfg, a);
    if a.ReadOk? {
      var tail := [Sleep(cfg.checkEvery as real)];
      assert s[1..] == tail && tail[1..] == [];
      assert Batches(tail) == [] && Erase(tail) == tail;
      assert Batches(s) == [s[0].batch] + Batches(tail);
      assert Erase(s) == [Publish(s[0].batch, true)] + Erase(tail);
    } else {
      assert s[1..] == [];
    }
  }

  /** The events of consecutive passes. */
  function Steps(cfg: Config, trace: seq<Attempt>): seq<Event> {
    if trace == [] then [] else Step(cfg, trace[0]) + Steps(cfg, trace[1..])
  }

  /** The top-level script over a trace of outcomes. */
  method RunService(cfg: Config, trace: seq<Attempt>) returns (events: seq<Event>)
    ensures events == [Sleep(StartupDelay), InitSensor] + Steps(cfg, trace)
    ensures Stop !in events
    ensures InitSensor !in events[2..]
  {
    events := [Sleep(StartupDelay), InitSensor];
    var pending := trace;
    while pending != []
      invariant [Sleep(StartupDelay), InitSensor] + Steps(cfg, trace) == events + Steps(cfg, pending)
      decreases |pending|
    {
      var attempt := pending[0];
      ghost var later := Steps(cfg, pending[1..]);
      pending := pending[1..];
      if attempt.ReadFail? {
        assert Step(cfg, attempt) == [Sleep(RetryDelay)];
        AppendAssoc(events, [Sleep(RetryDelay)], later);
        events := events + [Sleep(RetryDelay)];
        continue;
      }
      var msgs := ReadingMessages(cfg, attempt.temperature, attempt.humidity);
      // the events of this pass
      var pass: seq<Event>;
      if attempt.publish == PubOk {
        pass := [Publish(msgs, true)];
      } else {
        // The publish error is logged and swallowed.
        pass := [Publish(msgs, false)];
      }
      pass := pass + [Sleep(cfg.checkEvery as real)];
      assert pass == Step(cfg, attempt);
      AppendAssoc(events, pass, later);
      events := events + pass;
    }
    NeverStops(cfg, trace);
    assert events + Steps(cfg, []) == events;
    assert ([Sleep(StartupDelay), InitSensor] + Steps(cfg, trace))[2..] == Steps(cfg, trace);
  }

  /** The loop has no exit, and the sensor is created only once, before it. */
  lemma {:induction false} NeverStops(cfg: Config, trace: seq<Attempt>)
    ensures Stop !in Steps(cfg, trace)
    ensures InitSensor !in Steps(cfg, trace)
  {
    if trace != [] {
      NeverStops(cfg, trace[1..]);
    }
  }

  /** The message batches of a sequence of readings. */
  function ReadingBatches(cfg: Config, readings: seq<(Float, Float)>): seq<seq<Message>> {
    if readings == [] then []
    else [ReadingMessages(cfg, readings[0].0, readings[0].1)] + ReadingBatches(cfg, readings[1..])
  }

  /**
   * One publish call per successful read, in order, with the temperature
   * message first and the humidity message second, both from that same read;
   * nothing is published for a failed read.
   */
  lemma {:induction false} PublishesEveryReading(cfg: Config, trace: seq<Attempt>)
    ensures Batches(Steps(cfg, trace)) == ReadingBatches(cfg, Readings(trace))
  {
    if trace != [] {
      var s := Step(cfg, trace[0]);
      PublishesEveryReading(cfg, trace[1..]);
      BatchesAppend(s, Steps(cfg, trace[1..]));
      StepShape(cfg, trace[0]);
      if trace[0].ReadOk? {
        var r := (trace[0].temperature, trace[0].humidity);
        var rs := [r] + Readings(trace[1..]);
        assert Readings(trace) == rs;
        assert rs[1..] == Readings(trace[1..]);
        assert ReadingBatches(cfg, rs) == [ReadingMessages(cfg, r.0, r.1)] + ReadingBatches(cfg, rs[1..]);
      } else {
        assert Readings(trace) == [] + Readings(trace[1..]) == Readings(trace[1..]);
        assert Batches(Steps(cfg, trace)) == [] + Batches(Steps(cfg, trace[1..]));
      }
    }
  }

  /**
   * Every publish is immediately followed by the check-interval sleep,
   * whatever the publish outcome.
   */
  lemma {:induction false} PublishIsFollowedBySleep(cfg: Config, trace: seq<Attempt>, i: nat)
    requires i < |Steps(cfg, trace)| && Steps(cfg, trace)[i].Publish?
    ensures i + 1 < |Steps(cfg, trace)|
    ensures Steps(cfg, trace)[i + 1] == Sleep(cfg.checkEvery as real)
  {
    var s := Step(cfg, trace[0]);
    if i >= |s| {
      assert Steps(cfg, trace)[i] == Steps(cfg, trace[1..])[i - |s|];
      PublishIsFollowedBySleep(cfg, trace[1..], i - |s|);
      assert Steps(cfg, trace)[i + 1] == Steps(cfg, trace[1..])[i + 1 - |s|];
    }
  }

  /** All publish calls reported as returning normally. */
  function Erase(events: seq<Event>): seq<Event> {
    if events == [] then []
    else (if events[0].Publish? then [Publish(events[0].batch, true)] else [events[0]]) + Erase(events[1..])
  }

  lemma {:induction false} EraseAppend(a: seq<Event>, b: seq<Event>)
    ensures Erase(a + b) == Erase(a) + Erase(b)
  {
    if a == [] {
      assert a + b == b;
    } else {
      assert (a + b)[1..] == a[1..] + b;
      EraseAppend(a[1..], b);
    }
  }

  /** Two traces whose reads agree, whatever their publish outcomes. */
  predicate SameReads(a: seq<Attempt>, b: seq<Attempt>) {
    && |a| == |b|
    && forall i :: 0 <= i < |a| ==>
         (a[i].ReadOk? <==> b[i].ReadOk?)
         && (a[i].ReadOk? ==> a[i].temperature == b[i].temperature && a[i].humidity == b[i].humidity)
  }

  /**
   * A publish failure is swallowed: apart from the outcome recorded on the
   * publish event itself, the loop does exactly the same.
   */
  lemma {:induction false} PublishOutcomeNeverChangesControl(cfg: Config, a: seq<Attempt>, b: seq<Attempt>)
    requires SameReads(a, b)
    ensures Erase(Steps(cfg, a)) == Erase(Steps(cfg, b))
  {
    if a != [] {
      assert SameReads(a[1..], b[1..]) by {
        forall i | 0 <= i < |a| - 1 ensures a[1..][i] == a[i + 1] && b[1..][i] == b[i + 1] { }
      }
      PublishOutcomeNeverChangesControl(cfg, a[1..], b[1..]);
      EraseAppend(Step(cfg, a[0]), Steps(cfg, a[1..]));
      EraseAppend(Step(cfg, b[0]), Steps(cfg, b[1..]));
      StepShape(cfg, a[0]);
      StepShape(cfg, b[0]);
    }
  }

  /**
   * With the default topic and check interval, one successful read publishes
   * on `home/livingroom/temperature` and `home/livingroom/humidity` and then
   * sleeps 10 seconds.
   */
  lemma DefaultReading(t: Float, h: Float)
    ensures var cfg := Config(DefaultTopic, DefaultCheckEvery);
      Steps(cfg, [ReadOk(t, h, PubOk)])
        == [Publish([Message("home/livingroom/temperature", NumberText(t), 0, false),
                     Message("home/livingroom/humidity", NumberText(h), 0, false)], true),
            Sleep(10.0)]
  {
    var cfg := Config(DefaultTopic, DefaultCheckEvery);
    assert [ReadOk(t, h, PubOk)][1..] == [];
    assert DefaultTopic + "/temperature" == "home/livingroom/temperature";
    assert DefaultTopic + "/humidity" == "home/livingroom/humidity";
    assert Steps(cfg, [ReadOk(t, h, PubOk)]) == Step(cfg, ReadOk(t, h, PubOk)) + [];
  }
}
