/** Option and Result, the error-path wrappers used throughout. */
module Wrappers {
  datatype Option<+T> = None | Some(value: T)

  datatype Result<+T, +E> = Ok(value: T) | Err(error: E)
}

/** The failures the tool layer raises. Every one of them is a JavaScript
    `Error` in the source; here each kind is a constructor, and `Message`
    gives the `error.message` text the dispatcher shows. */
module Errors {
  import opened Wrappers
  import opened Strings

  datatype Failure =
    | MissingParam(param: string)
      // a required argument is absent, empty or not a string
    | UnknownTool(name: string)
      // the dispatcher's switch has no case for the name
    | ApiStatus(status: int, body: string)
      // the upstream answered with a status outside 200..299
    | Transport(cause: string)
      // fetch or JSON parsing threw
    | TypeError(text: string)
      // the runtime threw while a formatter read the payload

  type Fallible<T> = Result<T, Failure>

  /** What the gateway's catch puts in front of everything thrown inside
      its `try`. */
  const NetworkPrefix := "Network error: "

  const ApiErrorLead := "API error "

  /** What the gateway throws for a status outside 200..299, before the
      catch wraps it. */
  function ApiErrorText(status: int, body: string): string {
    ApiErrorLead + IntToDecimal(status) + ": " + body
  }

  /** `error.message` of the thrown error. The gateway's catch re-wraps
      everything thrown inside its `try`, the status error included, behind
      `NetworkPrefix`. */
  function Message(f: Failure): (m: string)
    ensures f.ApiStatus? || f.Transport? ==> StartsWith(m, NetworkPrefix)
  {
    match f
    case MissingParam(p) => "Missing or invalid required parameter: " + p
    case UnknownTool(n) => "Unknown tool: " + n
    case ApiStatus(s, b) =>
      AfterPrefix(NetworkPrefix, ApiErrorText(s, b));
      NetworkPrefix + ApiErrorText(s, b)
    case Transport(c) =>
      AfterPrefix(NetworkPrefix, c);
      NetworkPrefix + c
    case TypeError(t) => t
  }

  /** Reads status and body back from the text of an upstream-status error
      as the catch re-wraps it; `None` when the text does not have that form. */
  function ParseApiStatusMessage(m: string): (r: Option<(nat, string)>)
  {
    if !StartsWith(m, NetworkPrefix) then None
    else ParseApiErrorText(m[|NetworkPrefix|..])
  }

  function ParseApiErrorText(t: string): (r: Option<(nat, string)>)
  {
    if !StartsWith(t, ApiErrorLead) then None
    else ParseStatusAndBody(t[|ApiErrorLead|..])
  }

  /** A run of digits, ": ", then the body. */
  function ParseStatusAndBody(rest: string): (r: Option<(nat, string)>)
  {
    var k := DigitRun(rest, 0);
    if k == 0 || k + 2 > |rest| || rest[k..k + 2] != ": " then None
    else Some((ParseDecimal(rest[..k]), rest[k + 2..]))
  }

  /** The upstream status and body are carried verbatim: for every
      non-negative status they can be read back from the message. */
  lemma ApiStatusMessageReadsBack(status: nat, body: string)
    ensures ParseApiStatusMessage(Message(ApiStatus(status, body))) == Some((status, body))
  {
    var d := NatToDecimal(status);
    var sep := ": ";
    AfterPrefix(NetworkPrefix, ApiErrorText(status, body));
    assert ApiErrorText(status, body) == ApiErrorLead + d + sep + body;
    Reassociate(ApiErrorLead, d, sep, body);
    AfterPrefix(ApiErrorLead, d + sep + body);
    StatusAndBodyReadBack(status, body);
  }

  lemma StatusAndBodyReadBack(status: nat, body: string)
    ensures ParseStatusAndBody(NatToDecimal(status) + ": " + body) == Some((status, body))
  {
    var d := NatToDecimal(status);
    var sep := ": ";
    assert |sep| == 2 && !IsDigit(sep[0]);
    DigitRunOf(d, sep + body);
    ParseNatToDecimal(status);
    ThreePieces(d, sep, body);
  }
}

/** The JavaScript values the layer reads: parsed JSON payloads and tool
    arguments, plus `undefined`, which a read of an absent property gives.
    Numbers are integers. */
module JsValues {
  import opened Wrappers
  import opened Strings
  import opened Errors

  datatype Value =
    | Undefined
    | Null
    | Bool(b: bool)
    | Num(n: int)
    | Str(s: string)
    | Arr(items: seq<Value>)
    | Obj(fields: map<string, Value>)

  predicate Nullish(v: Value) {
    v.Undefined? || v.Null?
  }

  /** JavaScript truthiness: `undefined`, `null`, `false`, `0` and `""` are
      falsy, every other value (empty arrays and objects included) is truthy. */
  predicate Truthy(v: Value)
    ensures Truthy(v) <==> !(v == Undefined || v == Null || v == Bool(false) || v == Num(0) || v == Str(""))
    ensures Nullish(v) ==> !Truthy(v)
  {
    match v
    case Undefined => false
    case Null => false
    case Bool(b) => b
    case Num(n) => n != 0
    case Str(s) => s != ""
    case Arr(_) => true
    case Obj(_) => true
  }

  /** `v[key]` for a value that is neither null nor undefined. Arrays and
      strings expose `length`; the keys this layer reads are not inherited
      from any prototype, so every other read of a missing key is undefined. */
  function Get(v: Value, key: string): (r: Value)
    requires !Nullish(v)
    ensures v.Obj? && key in v.fields ==> r == v.fields[key]
    ensures v.Obj? && key !in v.fields ==> r == Undefined
    ensures v.Arr? && key == "length" ==> r == Num(|v.items|)
  {
    match v
    case Obj(m) => if key in m then m[key] else Undefined
    case Arr(items) => if key == "length" then Num(|items|) else Undefined
    case Str(s) => if key == "length" then Num(|s|) else Undefined
    case _ => Undefined
  }

  /** The TypeError a property read on null or undefined throws. */
  function ReadFailure(v: Value, key: string): Failure
    requires Nullish(v)
  {
    TypeError("Cannot read properties of " + (if v.Null? then "null" else "undefined")
              + " (reading '" + key + "')")
  }

  /** `${v}` in a template literal. An array is its elements' texts joined
      by commas, with null and undefined elements as empty text. */
  function ToText(v: Value): (r: string)
    ensures v.Str? ==> r == v.s
    ensures v.Num? ==> r == IntToDecimal(v.n)
    decreases v, 2
  {
    match v
    case Num(n) => IntToDecimal(n)
    case Str(s) => s
    case _ => OtherText(v)
  }

  /** `${v}` for a value that is neither a string nor a number. */
  function OtherText(v: Value): (r: string)
    requires !v.Str? && !v.Num?
    decreases v, 1
  {
    match v
    case Undefined => "undefined"
    case Null => "null"
    case Bool(b) => if b then "true" else "false"
    case Arr(items) => ElementsText(v, 0)
    case Obj(_) => "[object Object]"
  }

  function ElementsText(arr: Value, i: nat): string
    requires arr.Arr? && i <= |arr.items|
    decreases arr, 0, |arr.items| - i
  {
    if i == |arr.items| then ""
    else
      var e := arr.items[i];
      var t := if Nullish(e) then "" else ToText(e);
      if i + 1 == |arr.items| then t else t + "," + ElementsText(arr, i + 1)
  }

  /** A JavaScript number restricted to integers, or NaN. */
  datatype Numeric = Int(n: int) | NaN

  /** `Number(s)` for the empty string and for plain digit strings. */
  function StringToNumber(s: string): (r: Numeric)
    ensures AllDigits(s) ==> r == Int(ParseDecimal(s))
    ensures !AllDigits(s) ==> r == NaN
  {
    if AllDigits(s) then Int(ParseDecimal(s)) else NaN
  }

  /** The numeric conversion `v / 1000` applies to its left operand. */
  function ToNumber(v: Value): (r: Numeric)
    ensures v.Num? ==> r == Int(v.n)
    ensures v.Undefined? || v.Obj? ==> r == NaN
  {
    match v
    case Undefined => NaN
    case Null => Int(0)
    case Bool(b) => Int(if b then 1 else 0)
    case Num(n) => Int(n)
    case Str(s) => StringToNumber(s)
    case Arr(_) => StringToNumber(ToText(v))
    case Obj(_) => NaN
  }
}
