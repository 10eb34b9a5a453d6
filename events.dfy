/**
 * The abstract interface of both acquisition loops. The sensor and the
 * broker are replaced by a trace of outcomes, one per read attempt, and
 * what the loop does to the outside world is recorded as a trace of events.
 */
module Events {
  import opened Messages

  /** Whether a publish call returned normally or raised. */
  datatype PubOutcome = PubOk | PubFail

  /**
   * One pass through the read step: either the temperature or the humidity
   * access raised `RuntimeError`, or both values were obtained, together
   * with what the publish of those values will do.
   */
  datatype Attempt =
    | ReadFail
    | ReadOk(temperature: Float, humidity: Float, publish: PubOutcome)

  datatype Event =
    | Publish(batch: seq<Message>, ok: bool)   // one publish call and whether it returned normally
    | Sleep(seconds: real)
    | InitSensor                               // the sensor driver is created
    | Stop                                     // the loop returns

  /** The values of the successful reads, in order. */
  function Readings(trace: seq<Attempt>): seq<(Float, Float)> {
    if trace == [] then []
    else
      (if trace[0].ReadOk? then [(trace[0].temperature, trace[0].humidity)] else [])
      + Readings(trace[1..])
  }

  /** The message batches handed to the broker, in order. */
  function Batches(events: seq<Event>): seq<seq<Message>> {
    if events == [] then []
    else (if events[0].Publish? then [events[0].batch] else []) + Batches(events[1..])
  }

  lemma {:induction false} BatchesAppend(a: seq<Event>, b: seq<Event>)
    ensures Batches(a + b) == Batches(a) + Batches(b)
  {
    if a == [] {
      assert a + b == b;
    } else {
      assert (a + b)[1..] == a[1..] + b;
      BatchesAppend(a[1..], b);
    }
  }

  lemma AppendAssoc(a: seq<Event>, b: seq<Event>, c: seq<Event>)
    ensures (a + b) + c == a + (b + c)
  {
  }
}
