/**
 * The host-side dispatcher `WrappedSend`: it turns a key and the marshalled
 * argument array into at most one send on the OSC client, or an error string.
 */
module Bindings {
  import opened HostTypes

  /**
   * The part of the OSC service that `WrappedSend` consults: whether a client
   * for the VRChat endpoint exists, and `SendNumber`, whose body is not part of
   * this model and which answers with an optional error message.
   */
  datatype Osc = Osc(connected: bool, sendNumber: (Key, real) -> Option<string>)

  /** One call that `WrappedSend` issues (`SendNumber` is recorded as it is called). */
  datatype ClientCall =
    | SendNil(key: Key)
    | SendBool(key: Key, b: bool)
    | SendNumber(key: Key, d: real)
    | SendString(key: Key, s: string)

  /** The calls issued and the string returned; `error == None` is the `null` that means success. */
  datatype Dispatch = Dispatch(calls: seq<ClientCall>, error: Option<string>)

  const NotConnected: string := "Not connected to VRChat client"
  const WrongArity: string := "Not implemented: send() takes 1 or 2 arguments"

  /**
   * `value?.GetType().Name ?? "null"`: "null" for the null reference, the
   * runtime type name of a boxed value otherwise.
   */
  function TypeName(o: HostObject): string
  {
    match o
    case Null => "null"
    case BoxedBool(_) => "Boolean"
    case BoxedDouble(_) => "Double"
    case BoxedString(_) => "String"
    case BoxedOther(name) => name
  }

  /** The argument array a client call transmits: the inverse of the dispatch below. */
  function SentValues(c: ClientCall): seq<HostObject>
  {
    match c
    case SendNil(_) => []
    case SendBool(_, b) => [BoxedBool(b)]
    case SendNumber(_, d) => [BoxedDouble(d)]
    case SendString(_, s) => [BoxedString(s)]
  }

  /** The values no `case` of the dispatch accepts. */
  predicate Unsupported(o: HostObject)
  {
    o.Null? || o.BoxedOther?
  }

  /**
   * `WrappedSend`.  The connection is checked first, then the number of
   * values, then the runtime type of the single value.  At most one call is
   * issued, it goes to `key` and carries exactly `values`; success always
   * means one call was issued; a call that fails is a number send whose
   * error `SendNumber` reported.
   */
  function WrappedSend(osc: Osc, key: Key, values: seq<HostObject>): (r: Dispatch)
    ensures |r.calls| <= 1
    ensures forall c :: c in r.calls ==> c.key == key && SentValues(c) == values
    ensures !osc.connected ==> r == Dispatch([], Some(NotConnected))
    ensures osc.connected && |values| > 1 ==> r == Dispatch([], Some(WrongArity))
    ensures osc.connected && |values| == 1 && Unsupported(values[0]) ==>
              r == Dispatch([], Some("Not implemented: " + TypeName(values[0])))
    ensures r.error.None? ==> |r.calls| == 1
    ensures |r.calls| == 1 && r.error.Some? ==>
              r.calls[0].SendNumber? && r.error == osc.sendNumber(key, r.calls[0].d)
    ensures osc.connected && |values| == 1 && values[0].BoxedDouble? ==>
              r == Dispatch([SendNumber(key, values[0].d)], osc.sendNumber(key, values[0].d))
    ensures osc.connected && |values| <= 1 && (values == [] || !values[0].BoxedDouble?) ==>
              (r.error.None? <==> values == [] || !Unsupported(values[0]))
  {
    if !osc.connected then Dispatch([], Some(NotConnected))
    else if |values| == 0 then Dispatch([SendNil(key)], None)
    else if |values| > 1 then Dispatch([], Some(WrongArity))
    else
      match values[0]
      case BoxedBool(b) => Dispatch([SendBool(key, b)], None)
      case BoxedDouble(d) =>
        Dispatch([SendNumber(key, d)], osc.sendNumber(key, d))
      case BoxedString(s) => Dispatch([SendString(key, s)], None)
      case _ => Dispatch([], Some("Not implemented: " + TypeName(values[0])))
  }

  /** A connected send of a single null, whatever the key, sends nothing and reports "Not implemented: null". */
  lemma NullValueRejected(osc: Osc, key: Key)
    requires osc.connected
    ensures WrappedSend(osc, key, [Null]) == Dispatch([], Some("Not implemented: null"))
  {
    var values: seq<HostObject> := [Null];
    assert Unsupported(values[0]) && TypeName(values[0]) == "null";
    assert "Not implemented: " + "null" == "Not implemented: null";
  }
}
