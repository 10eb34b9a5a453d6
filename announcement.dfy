/**
 * The auto-discovery announcement of the discovery variant: two retained
 * configuration messages that let a home-automation hub register the
 * sensor's temperature and humidity, both pointing at one shared state topic.
 */
module Announcement {
  import opened Text
  import opened Messages

  const DefaultBaseTopic := "homeassistant"

  /** `'{}/sensor/{}'.format(base_topic, sensor_name)`, not lower-cased. */
  function TopicPath(sensorName: string, baseTopic: string): string {
    baseTopic + "/sensor/" + sensorName
  }

  /** The state topic written into both configuration payloads. */
  function StateTopic(sensorName: string, baseTopic: string): (t: string)
    ensures IsLowerCase(t)
  {
    Lower(TopicPath(sensorName, baseTopic) + "/state")
  }

  /** The configuration topic of one measurement. */
  function ConfigTopic(sensorName: string, baseTopic: string, measurement: string): (t: string)
    ensures IsLowerCase(t)
  {
    Lower(TopicPath(sensorName, baseTopic) + "/" + sensorName + "_" + measurement + "/config")
  }

  /** The dict both payloads are copied from. */
  function BasePayload(sensorName: string, baseTopic: string): Dict {
    [("state_topic", JStr(StateTopic(sensorName, baseTopic)))]
  }

  /** The temperature payload, filled in by successive key assignments. */
  function TemperaturePayload(sensorName: string, baseTopic: string): (d: Dict)
    ensures d == [("state_topic", JStr(StateTopic(sensorName, baseTopic))),
                  ("unit_of_measurement", JStr("°C")),
                  ("value_template", JStr("{{ value_json.temperature }}")),
                  ("name", JStr(sensorName + " Temperature")),
                  ("device_class", JStr("temperature"))]
  {
    var d := BasePayload(sensorName, baseTopic);
    var d := Put(d, "unit_of_measurement", JStr("°C"));
    var d := Put(d, "value_template", JStr("{{ value_json.temperature }}"));
    var d := Put(d, "name", JStr(sensorName + " Temperature"));
    Put(d, "device_class", JStr("temperature"))
  }

  /** The humidity payload: a fresh copy of the base dict, without a device class. */
  function HumidityPayload(sensorName: string, baseTopic: string): (d: Dict)
    ensures d == [("state_topic", JStr(StateTopic(sensorName, baseTopic))),
                  ("unit_of_measurement", JStr("%")),
                  ("value_template", JStr("{{ value_json.humidity }}")),
                  ("name", JStr(sensorName + " Humidity"))]
  {
    var d := BasePayload(sensorName, baseTopic);
    var d := Put(d, "unit_of_measurement", JStr("%"));
    var d := Put(d, "value_template", JStr("{{ value_json.humidity }}"));
    Put(d, "name", JStr(sensorName + " Humidity"))
  }

  /** The messages `service_announcement` publishes, in publishing order. */
  function Announce(sensorName: string, baseTopic: string): (msgs: seq<Message>)
    ensures |msgs| == 2
    ensures forall m :: m in msgs ==> m.qos == 1 && m.retain && IsLowerCase(m.topic)
  {
    [Message(ConfigTopic(sensorName, baseTopic, "temperature"),
             Object(TemperaturePayload(sensorName, baseTopic)), 1, true),
     Message(ConfigTopic(sensorName, baseTopic, "humidity"),
             Object(HumidityPayload(sensorName, baseTopic)), 1, true)]
  }

  /**
   * Exactly two messages, temperature first, both QoS 1 and retained, on the
   * lower-cased configuration topics; the temperature topic carries the
   * temperature payload and the humidity topic the humidity payload.
   */
  lemma AnnouncementShape(sensorName: string, baseTopic: string)
    ensures var msgs := Announce(sensorName, baseTopic);
      && |msgs| == 2
      && (forall m :: m in msgs ==> m.qos == 1 && m.retain)
      && msgs[0].topic == Lower(baseTopic + "/sensor/" + sensorName + "/" + sensorName + "_temperature/config")
      && msgs[1].topic == Lower(baseTopic + "/sensor/" + sensorName + "/" + sensorName + "_humidity/config")
      && msgs[0].payload == Object(TemperaturePayload(sensorName, baseTopic))
      && msgs[1].payload == Object(HumidityPayload(sensorName, baseTopic))
  {
    assert TopicPath(sensorName, baseTopic) + "/" + sensorName + "_" + "temperature" + "/config"
        == baseTopic + "/sensor/" + sensorName + "/" + sensorName + "_temperature/config";
    assert TopicPath(sensorName, baseTopic) + "/" + sensorName + "_" + "humidity" + "/config"
        == baseTopic + "/sensor/" + sensorName + "/" + sensorName + "_humidity/config";
  }

  /** Every announced topic and the shared state topic are lower case. */
  lemma AnnouncedTopicsAreLowerCase(sensorName: string, baseTopic: string)
    ensures forall m :: m in Announce(sensorName, baseTopic) ==> IsLowerCase(m.topic)
    ensures IsLowerCase(StateTopic(sensorName, baseTopic))
  {
  }

  /**
   * The temperature payload carries the shared state topic, the sensor name
   * exactly as given and a device class.
   */
  lemma TemperatureFields(sensorName: string, baseTopic: string)
    ensures var t := TemperaturePayload(sensorName, baseTopic);
      && Keys(t) == ["state_topic", "unit_of_measurement", "value_template", "name", "device_class"]
      && Get(t, "state_topic") == Some(JStr(StateTopic(sensorName, baseTopic)))
      && Get(t, "name") == Some(JStr(sensorName + " Temperature"))
      && Get(t, "device_class") == Some(JStr("temperature"))
  {
  }

  /**
   * The humidity payload carries the same state topic and the sensor name as
   * given, and nothing of the temperature payload leaks into it: it has no
   * device class.
   */
  lemma HumidityFields(sensorName: string, baseTopic: string)
    ensures var h := HumidityPayload(sensorName, baseTopic);
      && Keys(h) == ["state_topic", "unit_of_measurement", "value_template", "name"]
      && Get(h, "state_topic") == Some(JStr(StateTopic(sensorName, baseTopic)))
      && Get(h, "name") == Some(JStr(sensorName + " Humidity"))
      && Get(h, "device_class") == None
  {
  }

  /**
   * `main` lower-cases the base topic and the sensor name before announcing.
   * That changes no topic, only the `name` fields.
   */
  lemma PreLoweringKeepsTopics(sensorName: string, baseTopic: string)
    ensures var pre := Announce(Lower(sensorName), Lower(baseTopic));
      var raw := Announce(sensorName, baseTopic);
      && StateTopic(Lower(sensorName), Lower(baseTopic)) == StateTopic(sensorName, baseTopic)
      && pre[0].topic == raw[0].topic
      && pre[1].topic == raw[1].topic
      && Get(pre[0].payload.fields, "name") == Some(JStr(Lower(sensorName) + " Temperature"))
      && Get(pre[1].payload.fields, "name") == Some(JStr(Lower(sensorName) + " Humidity"))
  {
    StateTopicOfLowered(sensorName, baseTopic);
    ConfigTopicOfLowered(sensorName, baseTopic, "temperature");
    ConfigTopicOfLowered(sensorName, baseTopic, "humidity");
    TemperatureFields(Lower(sensorName), Lower(baseTopic));
    HumidityFields(Lower(sensorName), Lower(baseTopic));
  }

  lemma TopicPathOfLowered(n: string, b: string)
    ensures Lower(TopicPath(Lower(n), Lower(b))) == Lower(TopicPath(n, b))
  {
  }

  lemma StateTopicOfLowered(n: string, b: string)
    ensures StateTopic(Lower(n), Lower(b)) == StateTopic(n, b)
  {
    TopicPathOfLowered(n, b);
    SameLowerAppend(TopicPath(Lower(n), Lower(b)), TopicPath(n, b), "/state", "/state");
  }

  lemma ConfigTopicOfLowered(n: string, b: string, m: string)
    ensures ConfigTopic(Lower(n), Lower(b), m) == ConfigTopic(n, b, m)
  {
    var ln := Lower(n);
    var p', p := TopicPath(ln, Lower(b)), TopicPath(n, b);
    TopicPathOfLowered(n, b);
    LowerIdempotent(n);
    SameLowerAppend(p', p, "/", "/");
    SameLowerAppend(p' + "/", p + "/", ln, n);
    SameLowerAppend(p' + "/" + ln, p + "/" + n, "_", "_");
    SameLowerAppend(p' + "/" + ln + "_", p + "/" + n + "_", m, m);
    SameLowerAppend(p' + "/" + ln + "_" + m, p + "/" + n + "_" + m, "/config", "/config");
  }
}
