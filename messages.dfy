/**
 * Broker messages. A JSON object is an ordered list of key/value pairs, the
 * way a Python dict keeps its insertion order; floating-point numbers are
 * opaque values whose rendering is not modelled.
 */
module Messages {

  datatype Option<T> = None | Some(value: T)

  /** A sensor value (a Python float). */
  type Float = real

  datatype Json = JStr(s: string) | JNum(x: Float)

  /** A JSON object: keys in insertion order with their values. */
  type Dict = seq<(string, Json)>

  datatype Payload =
    | Object(fields: Dict)      // `json.dumps` of a dict
    | NumberText(x: Float)      // `str(x)` of a float

  datatype Message = Message(topic: string, payload: Payload, qos: nat, retain: bool)

  /** The keys of a dict, in insertion order. */
  function Keys(d: Dict): (ks: seq<string>)
    ensures |ks| == |d|
  {
    if d == [] then [] else [d[0].0] + Keys(d[1..])
  }

  /** `d.get(k)`: the value of the first entry with key `k`, if any. */
  function Get(d: Dict, k: string): Option<Json> {
    if d == [] then None
    else if d[0].0 == k then Some(d[0].1)
    else Get(d[1..], k)
  }

  /**
   * `d[k] = v`: a new key goes to the end; an existing key keeps its place
   * and gets the new value.
   */
  function Put(d: Dict, k: string, v: Json): (r: Dict)
    ensures k !in Keys(d) ==> r == d + [(k, v)] && Keys(r) == Keys(d) + [k]
    ensures k in Keys(d) ==> Keys(r) == Keys(d)
    ensures Get(r, k) == Some(v)
    ensures forall k' :: k' != k ==> Get(r, k') == Get(d, k')
  {
    if d == [] then [(k, v)]
    else if d[0].0 == k then [(k, v)] + d[1..]
    else
      var r := [d[0]] + Put(d[1..], k, v);
      assert r[1..] == Put(d[1..], k, v);
      r
  }
}
