/** lib/utils/errorHandler.ts: turning whatever a failed call threw into a
    message, and telling network failures and timeouts apart.

    The argument is an arbitrary JavaScript value (`error: any`), so it is
    modelled as a JSON-like value. Reading a property of `undefined` or
    `null` throws a TypeError; reading one of the properties the handler
    asks for (`data`, `response`, `message`, `error`, `errors`, `code`) from
    any other non-object value gives `undefined`. Numbers are integers. */
module ErrorHandler {
  import opened Js

  datatype JsValue =
    | Undefined
    | Null
    | Bool(b: bool)
    | Num(n: int)
    | Str(s: string)
    | Arr(items: seq<JsValue>)
    | Obj(fields: map<string, JsValue>)

  /** What evaluating an expression does: produce a value or throw. */
  datatype Outcome<T> = Returns(value: T) | Throws

  const DefaultMessage := "Something went wrong. Please try again."
  const NetworkErrorMessage := "Network Error"
  const AbortedCode := "ECONNABORTED"

  predicate Nullish(v: JsValue) {
    v.Undefined? || v.Null?
  }

  /** `if (v)`: `undefined`, `null`, `false`, `0` and `""` are falsy; arrays
      and objects, even empty ones, are truthy. */
  predicate JsTruthy(v: JsValue) {
    match v
    case Undefined => false
    case Null => false
    case Bool(b) => b
    case Num(n) => n != 0
    case Str(s) => s != ""
    case Arr(_) => true
    case Obj(_) => true
  }

  /** `v.key` on a value that is not `undefined` or `null`. */
  function Prop(v: JsValue, key: string): (r: JsValue)
    requires !Nullish(v)
    ensures !v.Obj? ==> r == Undefined
    ensures v.Obj? ==> (r != Undefined ==> key in v.fields && v.fields[key] == r)
  {
    if v.Obj? && key in v.fields then v.fields[key] else Undefined
  }

  /** `v?.key`: `undefined` when `v` is `undefined` or `null`. */
  function OptProp(v: JsValue, key: string): (r: JsValue)
    ensures Nullish(v) ==> r == Undefined
  {
    if Nullish(v) then Undefined else Prop(v, key)
  }

  /** The decimal digits of a natural number. */
  function NatDigits(n: nat): (r: string)
    ensures |r| >= 1
    ensures forall k | 0 <= k < |r| :: '0' <= r[k] <= '9'
  {
    var d := [(n % 10) as char + '0'];
    if n < 10 then d else NatDigits(n / 10) + d
  }

  /** `String(v)` for the values an `errors` array can hold: arrays join
      their elements with commas, plain objects print as
      `[object Object]`. */
  function ToStr(v: JsValue): string
    decreases v, 1, 0
  {
    match v
    case Undefined => "undefined"
    case Null => "null"
    case Bool(b) => if b then "true" else "false"
    case Num(n) => if n < 0 then "-" + NatDigits(-n) else NatDigits(n)
    case Str(s) => s
    case Arr(items) => JoinFrom(v, 0, ",")
    case Obj(_) => "[object Object]"
  }

  /** `a.slice(i).join(sep)` (ECMA-262, section 23.1.3.18): elements that
      are `undefined` or `null` print as the empty string. */
  function JoinFrom(a: JsValue, i: nat, sep: string): string
    requires a.Arr? && i <= |a.items|
    decreases a, 0, |a.items| - i
  {
    if i == |a.items| then ""
    else
      var e := a.items[i];
      var shown := if Nullish(e) then "" else ToStr(e);
      if i + 1 == |a.items| then shown else shown + sep + JoinFrom(a, i + 1, sep)
  }

  function Join(a: JsValue, sep: string): string
    requires a.Arr?
  {
    JoinFrom(a, 0, sep)
  }

  /** The fields the handler looks at, in the order it looks at them. */
  function DataMessage(error: JsValue): JsValue
    requires !Nullish(error)
  {
    OptProp(Prop(error, "data"), "message")
  }

  function ResponseData(error: JsValue): JsValue
    requires !Nullish(error)
  {
    OptProp(Prop(error, "response"), "data")
  }

  /** `getErrorMessage(error)`. The value returned is whatever the chosen
      field holds, which need not be a string. */
  function GetErrorMessage(error: JsValue): (r: Outcome<JsValue>)
    ensures r.Throws? <==> Nullish(error)
    ensures error.Str? ==> r == Returns(if error.s != "" then error else Str(DefaultMessage))
  {
    if error.Str? then Returns(if |error.s| > 0 then error else Str(DefaultMessage))
    else if Nullish(error) then Throws
    else if JsTruthy(DataMessage(error)) then Returns(DataMessage(error))
    else
      var data := ResponseData(error);
      if JsTruthy(OptProp(data, "message")) then Returns(OptProp(data, "message"))
      else if JsTruthy(OptProp(data, "error")) then Returns(OptProp(data, "error"))
      else if JsTruthy(OptProp(data, "errors")) then
        var errors := OptProp(data, "errors");
        if errors.Arr? then Returns(Str(Join(errors, ", "))) else Returns(errors)
      else if JsTruthy(Prop(error, "message")) then Returns(Prop(error, "message"))
      else Returns(Str(DefaultMessage))
  }

  /** A truthy `data.message` wins over every other field. */
  lemma DataMessageWins(error: JsValue)
    requires !Nullish(error) && !error.Str? && JsTruthy(DataMessage(error))
    ensures GetErrorMessage(error) == Returns(DataMessage(error))
  {
  }

  /** The fields after `data.message`, in order: the result is the first
      truthy one (an `errors` array shown joined), or the default when all
      of them are falsy. */
  lemma ResponseFieldsInOrder(error: JsValue)
    requires !Nullish(error) && !error.Str? && !JsTruthy(DataMessage(error))
    ensures var data := ResponseData(error);
      var fields := [OptProp(data, "message"), OptProp(data, "error"), OptProp(data, "errors"), Prop(error, "message")];
      && (forall k | 0 <= k < 4 :: JsTruthy(fields[k]) && (forall j | 0 <= j < k :: !JsTruthy(fields[j])) ==>
            GetErrorMessage(error) == Returns(if k == 2 && fields[k].Arr? then Str(Join(fields[k], ", ")) else fields[k]))
      && ((forall k | 0 <= k < 4 :: !JsTruthy(fields[k])) ==> GetErrorMessage(error) == Returns(Str(DefaultMessage)))
  {
    var data := ResponseData(error);
    var fields := [OptProp(data, "message"), OptProp(data, "error"), OptProp(data, "errors"), Prop(error, "message")];
    forall k | 0 <= k < 4 && JsTruthy(fields[k]) && (forall j | 0 <= j < k :: !JsTruthy(fields[j]))
      ensures GetErrorMessage(error) == Returns(if k == 2 && fields[k].Arr? then Str(Join(fields[k], ", ")) else fields[k])
    {
      if k > 0 { assert !JsTruthy(fields[0]); }
      if k > 1 { assert !JsTruthy(fields[1]); }
      if k > 2 { assert !JsTruthy(fields[2]); }
    }
    if forall k | 0 <= k < 4 :: !JsTruthy(fields[k]) {
      assert !JsTruthy(fields[0]) && !JsTruthy(fields[1]) && !JsTruthy(fields[2]) && !JsTruthy(fields[3]);
    }
  }

  /** The message is truthy, except that an `errors` array whose elements
      all print empty (the empty array, say) yields the empty string. */
  lemma MessageIsTruthyUnlessErrorsArray(error: JsValue)
    requires !Nullish(error)
    ensures var r := GetErrorMessage(error);
      JsTruthy(r.value) || (r.value == Str("") && OptProp(ResponseData(error), "errors").Arr?)
  {
  }

  /** An empty `errors` array is truthy, so it is chosen, and joins to "". */
  lemma EmptyErrorsArrayYieldsEmptyMessage(error: JsValue)
    requires !Nullish(error) && !error.Str? && !JsTruthy(DataMessage(error))
    requires !JsTruthy(OptProp(ResponseData(error), "message")) && !JsTruthy(OptProp(ResponseData(error), "error"))
    requires OptProp(ResponseData(error), "errors") == Arr([])
    ensures GetErrorMessage(error) == Returns(Str(""))
  {
  }

  /** A list of validation errors is shown comma-separated. */
  lemma ErrorsArrayIsCommaSeparated(a: string, b: string)
    ensures Join(Arr([Str(a), Str(b)]), ", ") == a + ", " + b
  {
    var arr := Arr([Str(a), Str(b)]);
    assert arr.items[0] == Str(a) && arr.items[1] == Str(b);
    assert JoinFrom(arr, 1, ", ") == b;
    assert JoinFrom(arr, 0, ", ") == a + ", " + JoinFrom(arr, 1, ", ");
  }

  /** `isNetworkError(error)`: no truthy `response`, and a `message` that
      is exactly the string `Network Error`. */
  function IsNetworkError(error: JsValue): (r: Outcome<bool>)
    ensures r.Throws? <==> Nullish(error)
    ensures r.Returns? ==>
      (r.value <==> !JsTruthy(Prop(error, "response")) && Prop(error, "message") == Str(NetworkErrorMessage))
  {
    if Nullish(error) then Throws
    else Returns(!JsTruthy(Prop(error, "response")) && Prop(error, "message") == Str(NetworkErrorMessage))
  }

  /** `v.includes(sub)` on the value of `message`: a string searches for a
      substring, an array for an element; other values have no `includes`
      and calling it throws. */
  function CallIncludes(v: JsValue, sub: string): (r: Outcome<JsValue>)
    requires !Nullish(v)
    ensures r.Returns? <==> v.Str? || v.Arr?
    ensures r.Returns? ==> r.value.Bool?
  {
    match v
    case Str(s) => Returns(Bool(Includes(s, sub)))
    case Arr(items) => Returns(Bool(Str(sub) in items))
    case _ => Throws
  }

  /** `isTimeoutError(error)`. `||` yields its right operand when the left
      one is false, so the result may be `undefined`. */
  function IsTimeoutError(error: JsValue): (r: Outcome<JsValue>)
    ensures Nullish(error) ==> r.Throws?
    ensures r.Returns? ==> r.value == Undefined || r.value.Bool?
  {
    if Nullish(error) then Throws
    else if Prop(error, "code") == Str(AbortedCode) then Returns(Bool(true))
    else
      var message := Prop(error, "message");
      if Nullish(message) then Returns(Undefined) else CallIncludes(message, "timeout")
  }

  /** For a message that is a string or absent, the check says yes exactly
      when the code is `ECONNABORTED` or the message mentions `timeout`. */
  lemma TimeoutIff(error: JsValue)
    requires !Nullish(error)
    requires var m := Prop(error, "message"); m.Str? || Nullish(m)
    ensures IsTimeoutError(error).Returns?
    ensures JsTruthy(IsTimeoutError(error).value) <==>
      Prop(error, "code") == Str(AbortedCode) ||
      (Prop(error, "message").Str? && Includes(Prop(error, "message").s, "timeout"))
  {
  }

  /** A message of another kind (a number, say) makes the check throw,
      unless the code already said yes. */
  lemma TimeoutThrowsOnOddMessage(error: JsValue)
    requires !Nullish(error) && Prop(error, "code") != Str(AbortedCode)
    requires var m := Prop(error, "message"); !Nullish(m) && !m.Str? && !m.Arr?
    ensures IsTimeoutError(error).Throws?
  {
  }

  /** A network error is a timeout only by its code: its message does not
      mention `timeout`. */
  lemma NetworkErrorIsTimeoutOnlyByCode(error: JsValue)
    requires IsNetworkError(error) == Returns(true)
    ensures IsTimeoutError(error) ==
      Returns(Bool(Prop(error, "code") == Str(AbortedCode)))
  {
    if Prop(error, "code") != Str(AbortedCode) {
      if Includes(NetworkErrorMessage, "timeout") {
        IncludedCharOccurs(NetworkErrorMessage, "timeout", 'm');
      }
    }
  }

  /** A network error without a `data.message` is reported by its own
      message: there is no response to take a message from. */
  lemma NetworkErrorReportsItself(error: JsValue)
    requires IsNetworkError(error) == Returns(true) && !error.Str? && !JsTruthy(DataMessage(error))
    ensures GetErrorMessage(error) == Returns(Str(NetworkErrorMessage))
  {
    assert ResponseData(error) == Undefined;
  }
}
