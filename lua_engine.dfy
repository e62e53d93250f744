/**
 * The host function behind the script-visible `osc.send`: it reads its
 * arguments off the Lua stack, either answers with an error pair or hands a
 * key and a marshalled argument array to the send hook, and pushes its
 * results back onto the stack.
 */
module LuaEngine {
  import opened HostTypes

  /** Lua types that `send` does not marshal; every one of them becomes null. */
  datatype OpaqueKind = Table | Function | Userdata | LightUserdata | Thread

  /** A slot of the Lua stack, tagged as `lua_type` tags it; the number payload is opaque. */
  datatype LuaValue =
    | Nil
    | Boolean(b: bool)
    | Number(n: real)
    | LuaString(s: string)
    | Opaque(kind: OpaqueKind)

  /** One call of the `OnSendFunctionCalled` hook. */
  datatype HookCall = HookCall(key: Key, args: seq<HostObject>)

  /** What one call of `send` does: the hook call it makes, if any, and the values it returns to the script. */
  datatype Reply = Reply(hook: Option<HookCall>, results: seq<LuaValue>)

  const NoKey: string := "no key"
  const WrongArity: string := "not implemented: send() takes 1 or 2 arguments"

  /**
   * `lua_tostring`: a string as it is, a number through the interpreter's own
   * number formatting (a parameter here), and NULL for every other type.
   */
  function ToStringValue(v: LuaValue, numberToString: real -> string): Key
  {
    match v
    case LuaString(s) => Some(s)
    case Number(n) => Some(numberToString(n))
    case _ => None
  }

  /** The slot after `lua_tostring` has read it: a number is replaced by its string form in place. */
  function Coerce(v: LuaValue, numberToString: real -> string): LuaValue
  {
    if v.Number? then LuaString(numberToString(v.n)) else v
  }

  /**
   * The marshalling of the last argument into `args[0]`: booleans, numbers and
   * strings keep their payload; every other Lua type becomes null.
   */
  function Classify(v: LuaValue): (r: HostObject)
    ensures r.Null? <==> !(v.Boolean? || v.Number? || v.LuaString?)
    ensures !r.BoxedOther?
    ensures v.Boolean? ==> r == BoxedBool(v.b)
    ensures v.Number? ==> r == BoxedDouble(v.n)
    ensures v.LuaString? ==> r == BoxedString(v.s)
  {
    match v
    case Boolean(b) => BoxedBool(b)
    case Number(n) => BoxedDouble(n)
    case LuaString(s) => BoxedString(s)
    case _ => Null
  }

  /** The stack position the key is read from: index -1 with one argument, index -2 otherwise. */
  function KeyIndex(nargs: nat): nat
    requires nargs >= 1
  {
    if nargs == 1 then 0 else nargs - 2
  }

  /** The argument slots after `send` has read the key with `lua_tostring`. */
  function KeyCoerced(stack: seq<LuaValue>, numberToString: real -> string): seq<LuaValue>
  {
    if |stack| == 0 || |stack| == 3 then stack
    else stack[KeyIndex(|stack|) := Coerce(stack[KeyIndex(|stack|)], numberToString)]
  }

  /**
   * What `send` does with the arguments `stack` (bottom first).  No arguments
   * and three arguments are refused with a `(nil, message)` pair and no hook
   * call; every other count makes exactly one hook call and returns `true`
   * alone, whatever becomes of the send downstream.
   */
  function CallSendReply(stack: seq<LuaValue>, numberToString: real -> string): (r: Reply)
    ensures r.hook.None? <==> |stack| == 0 || |stack| == 3
    ensures r.hook.None? ==> r.results == [Nil, LuaString(if |stack| == 0 then NoKey else WrongArity)]
    ensures r.hook.Some? <==> r.results == [Boolean(true)]
    ensures r.hook.Some? ==> r.hook.value.key == ToStringValue(stack[KeyIndex(|stack|)], numberToString)
    ensures r.hook.Some? ==> |r.hook.value.args| == if |stack| == 1 then 1 else |stack| - 1
    ensures r.hook.Some? ==>
              r.hook.value.args[0] == if |stack| == 1 then Null else Classify(stack[|stack| - 1])
    ensures r.hook.Some? ==> forall i :: 1 <= i < |r.hook.value.args| ==> r.hook.value.args[i] == Null
  {
    var nargs := |stack|;
    if nargs == 0 then
      Reply(None, [Nil, LuaString(NoKey)])
    else if nargs == 1 then
      Reply(Some(HookCall(ToStringValue(stack[0], numberToString), [Null])), [Boolean(true)])
    else if nargs == 3 then
      Reply(None, [Nil, LuaString(WrongArity)])
    else
      var args := [Classify(stack[nargs - 1])] + seq(nargs - 2, _ => Null);
      Reply(Some(HookCall(ToStringValue(stack[nargs - 2], numberToString), args)), [Boolean(true)])
  }

  /**
   * `send` as it was evidently meant to behave with a key alone: the hook
   * receives an empty argument array (an untyped send) instead of one holding
   * null.  Every other argument count behaves as `CallSendReply`.
   */
  function CorrectedCallSendReply(stack: seq<LuaValue>, numberToString: real -> string): (r: Reply)
    ensures |stack| == 1 ==> r == Reply(Some(HookCall(ToStringValue(stack[0], numberToString), [])), [Boolean(true)])
    ensures r.results == CallSendReply(stack, numberToString).results
    ensures |stack| != 1 ==> r == CallSendReply(stack, numberToString)
  {
    if |stack| == 1 then
      Reply(Some(HookCall(ToStringValue(stack[0], numberToString), [])), [Boolean(true)])
    else
      CallSendReply(stack, numberToString)
  }

  /** The interpreter's value stack, bottom first, as a C function called from Lua sees it. */
  class LuaState {
    var stack: seq<LuaValue>

    constructor (arguments: seq<LuaValue>)
      ensures stack == arguments
    {
      stack := arguments;
    }

    /** `lua_gettop`: the number of values on the stack. */
    function Top(): nat
      reads this
    {
      |stack|
    }

    /** The value at a negative (top-relative) stack index. */
    function At(index: int): LuaValue
      reads this
      requires -|stack| <= index <= -1
    {
      stack[|stack| + index]
    }

    /** `lua_pushnil`, `lua_pushstring`, `lua_pushboolean`. */
    method Push(v: LuaValue)
      modifies this
      ensures stack == old(stack) + [v]
    {
      stack := stack + [v];
    }

    /** `lua_tostring`, including its in-place conversion of a number slot to a string. */
    method ToString(index: int, numberToString: real -> string) returns (s: Key)
      requires -|stack| <= index <= -1
      modifies this
      ensures s == ToStringValue(old(At(index)), numberToString)
      ensures stack == old(stack)[|old(stack)| + index := Coerce(old(At(index)), numberToString)]
    {
      var v := stack[|stack| + index];
      s := ToStringValue(v, numberToString);
      stack := stack[|stack| + index := Coerce(v, numberToString)];
    }
  }

  /**
   * `_callSend`: the stack holds the script's arguments on entry; on exit the
   * values returned to the script are pushed on top of the (read) arguments,
   * `nresults` says how many there are, and `hook` is the call made to
   * `OnSendFunctionCalled`, if any.
   */
  method CallSend(L: LuaState, numberToString: real -> string) returns (nresults: nat, hook: Option<HookCall>)
    modifies L
    ensures hook == CallSendReply(old(L.stack), numberToString).hook
    ensures nresults == |CallSendReply(old(L.stack), numberToString).results|
    ensures L.stack == KeyCoerced(old(L.stack), numberToString) + CallSendReply(old(L.stack), numberToString).results
    ensures nresults <= |L.stack| && L.stack[|L.stack| - nresults..] == CallSendReply(old(L.stack), numberToString).results
  {
    var nargs := L.Top();
    if nargs == 0 {
      L.Push(Nil);
      L.Push(LuaString(NoKey));
      return 2, None;
    }
    if nargs == 1 {
      var key := L.ToString(-1, numberToString);
      hook := Some(HookCall(key, [Null]));
      L.Push(Boolean(true));
      return 1, hook;
    }
    if nargs == 3 {
      L.Push(Nil);
      L.Push(LuaString(WrongArity));
      return 2, None;
    }
    var args := new HostObject[nargs - 1](_ => Null);
    match L.At(-1) {
      case Boolean(b) =>
        args[0] := BoxedBool(b);
      case Number(n) =>
        args[0] := BoxedDouble(n);
      case LuaString(_) =>
        var s := L.ToString(-1, numberToString);
        args[0] := BoxedString(s.value);
      case _ =>
        args[0] := Null;
    }
    var key := L.ToString(-2, numberToString);
    assert args[..] == [Classify(old(L.stack)[nargs - 1])] + seq(nargs - 2, _ => Null);
    hook := Some(HookCall(key, args[..]));
    L.Push(Boolean(true));
    return 1, hook;
  }
}
