/**
 * `osc.send` end to end: the send hook of the Lua engine is subscribed to
 * `WrappedSend` at start-up, so the key and the argument array that
 * `_callSend` produces become the input of the dispatcher.  The hook is an
 * `Action`, so the string `WrappedSend` returns never reaches the script.
 */
module SendWiring {
  import opened HostTypes
  import LuaEngine
  import Bindings

  /** What the script gets back, and what the dispatcher did, if it was reached. */
  datatype Outcome = Outcome(results: seq<LuaEngine.LuaValue>, dispatch: Option<Bindings.Dispatch>)

  /** Feeds the hook call of a reply, if any, to `WrappedSend`. */
  function Deliver(osc: Bindings.Osc, reply: LuaEngine.Reply): Outcome
  {
    match reply.hook
    case None => Outcome(reply.results, None)
    case Some(h) => Outcome(reply.results, Some(Bindings.WrappedSend(osc, h.key, h.args)))
  }

  /** A script's `osc.send(...)` with the arguments `stack`, as the program is written. */
  function ScriptSend(osc: Bindings.Osc, stack: seq<LuaEngine.LuaValue>, numberToString: real -> string): (r: Outcome)
    ensures r.dispatch.Some? <==> |stack| != 0 && |stack| != 3
    ensures r.dispatch.Some? ==> r.results == [LuaEngine.Boolean(true)]
    ensures r.dispatch.None? ==> |r.results| == 2 && r.results[0] == LuaEngine.Nil
  {
    Deliver(osc, LuaEngine.CallSendReply(stack, numberToString))
  }

  /** The same call with the one-argument form corrected to an untyped send. */
  function CorrectedScriptSend(osc: Bindings.Osc, stack: seq<LuaEngine.LuaValue>, numberToString: real -> string): Outcome
  {
    Deliver(osc, LuaEngine.CorrectedCallSendReply(stack, numberToString))
  }

  /**
   * Whatever the dispatcher answers -- not connected, an unsupported value, a
   * failed number send -- the script sees the same results: `true` whenever
   * the dispatcher was reached.
   */
  lemma DownstreamErrorsNeverReachScript(osc1: Bindings.Osc, osc2: Bindings.Osc, stack: seq<LuaEngine.LuaValue>,
                                         numberToString: real -> string)
    ensures ScriptSend(osc1, stack, numberToString).results == ScriptSend(osc2, stack, numberToString).results
    ensures ScriptSend(osc1, stack, numberToString).dispatch.Some? ==>
              ScriptSend(osc1, stack, numberToString).results == [LuaEngine.Boolean(true)]
  {
  }

  /**
   * As written, no script call ever issues the untyped send: the hook is
   * never called with an empty argument array, so the `SendNil` branch of
   * `WrappedSend` is unreachable from a script.
   */
  lemma NilSendUnreachable(osc: Bindings.Osc, stack: seq<LuaEngine.LuaValue>, numberToString: real -> string)
    ensures LuaEngine.CallSendReply(stack, numberToString).hook.Some? ==>
              |LuaEngine.CallSendReply(stack, numberToString).hook.value.args| >= 1
    ensures ScriptSend(osc, stack, numberToString).dispatch.Some? ==>
              forall c :: c in ScriptSend(osc, stack, numberToString).dispatch.value.calls ==> !c.SendNil?
  {
  }

  /**
   * As written, `send(key)` passes an array holding one null to the
   * dispatcher, which rejects it as an unsupported value: nothing is sent,
   * and the script is still told `true`.
   */
  lemma OneArgumentSendIsRejected(osc: Bindings.Osc, key: LuaEngine.LuaValue, numberToString: real -> string)
    requires osc.connected
    ensures ScriptSend(osc, [key], numberToString) ==
              Outcome([LuaEngine.Boolean(true)], Some(Bindings.Dispatch([], Some("Not implemented: null"))))
  {
    Bindings.NullValueRejected(osc, LuaEngine.ToStringValue(key, numberToString));
  }

  /** With the correction, `send(key)` issues exactly the untyped send to `key` and succeeds. */
  lemma CorrectedOneArgumentSendIsNil(osc: Bindings.Osc, key: LuaEngine.LuaValue, numberToString: real -> string)
    requires osc.connected
    ensures CorrectedScriptSend(osc, [key], numberToString) ==
              Outcome([LuaEngine.Boolean(true)],
                      Some(Bindings.Dispatch([Bindings.SendNil(LuaEngine.ToStringValue(key, numberToString))], None)))
  {
  }

  /** Apart from the one-argument form, the correction changes nothing. */
  lemma CorrectionIsLocal(osc: Bindings.Osc, stack: seq<LuaEngine.LuaValue>, numberToString: real -> string)
    requires |stack| != 1
    ensures CorrectedScriptSend(osc, stack, numberToString) == ScriptSend(osc, stack, numberToString)
  {
  }

  /**
   * `send(key, value)` on a connected client: a boolean, number or string
   * value reaches the client unchanged, addressed to the key; any other Lua
   * value is marshalled to null and rejected.
   */
  lemma TwoArgumentSendForwardsValue(osc: Bindings.Osc, key: LuaEngine.LuaValue, value: LuaEngine.LuaValue,
                                     numberToString: real -> string)
    requires osc.connected
    ensures var out := ScriptSend(osc, [key, value], numberToString);
            var k := LuaEngine.ToStringValue(key, numberToString);
            out.results == [LuaEngine.Boolean(true)] && out.dispatch.Some? &&
            match value
            case Boolean(b) => out.dispatch.value == Bindings.Dispatch([Bindings.SendBool(k, b)], None)
            case Number(n) => out.dispatch.value == Bindings.Dispatch([Bindings.SendNumber(k, n)], osc.sendNumber(k, n))
            case LuaString(s) => out.dispatch.value == Bindings.Dispatch([Bindings.SendString(k, s)], None)
            case _ => out.dispatch.value == Bindings.Dispatch([], Some("Not implemented: null"))
  {
    var args := [LuaEngine.Classify(value)] + seq(0, _ => HostTypes.Null);
    assert args == [LuaEngine.Classify(value)];
    Bindings.NullValueRejected(osc, LuaEngine.ToStringValue(key, numberToString));
  }

  /**
   * With four or more arguments the hook is called (keyed by the
   * second-to-last argument) but the dispatcher refuses the array of null
   * padding, so nothing is sent while the script is told `true`.
   */
  lemma ExtraArgumentsDroppedDownstream(osc: Bindings.Osc, stack: seq<LuaEngine.LuaValue>, numberToString: real -> string)
    requires osc.connected && |stack| >= 4
    ensures ScriptSend(osc, stack, numberToString) ==
              Outcome([LuaEngine.Boolean(true)], Some(Bindings.Dispatch([], Some(Bindings.WrongArity))))
  {
  }
}
