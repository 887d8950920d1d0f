/** JSON values as they travel between the browser, the proxy and the webhook, and how the
    page reads a field of a parsed body. */
module Json {
  import opened Wrappers
  import opened JsText

  /** A JSON value as JSON.parse yields it. Numbers are integers here; an object is a map
      from keys to values, so member order and repeated keys (the last one wins) are
      already resolved. */
  datatype Json =
    | JNull
    | JBool(b: bool)
    | JNumber(n: int)
    | JString(s: string)
    | JArray(items: seq<Json>)
    | JObject(members: map<string, Json>)

  /** JavaScript truthiness of a parsed value: `null`, `false`, `0` and "" are falsy;
      every array and object is truthy, empty ones included. */
  predicate IsTruthy(j: Json)
  {
    match j
    case JNull => false
    case JBool(b) => b
    case JNumber(n) => n != 0
    case JString(s) => s != ""
    case JArray(_) => true
    case JObject(_) => true
  }

  /** Whether `String(v)` returns at all. A parsed object with its own `toString` member
      (a parsed value is never callable) falls through to `valueOf`, which returns the
      object itself, so the conversion throws a TypeError; an array converts each element
      that is not `null`. */
  predicate Converts(j: Json)
  {
    match j
    case JObject(members) => "toString" !in members
    case JArray(items) => forall i :: 0 <= i < |items| ==> items[i].JNull? || Converts(items[i])
    case _ => true
  }

  /** `String(v)`, as `textContent` and `new Error(v)` convert a value that converts: an
      array joins its elements' texts with commas, and an object reads "[object Object]". */
  function ToText(j: Json): string
    requires Converts(j)
    decreases j, 0
  {
    match j
    case JNull => "null"
    case JBool(b) => if b then "true" else "false"
    case JNumber(n) => IntToString(n)
    case JString(s) => s
    case JArray(items) =>
      Join(seq(|items|, i requires 0 <= i < |items| => ElementText(items[i])), ",")
    case JObject(_) => "[object Object]"
  }

  /** The text of an array element inside `join`: `null` becomes "". */
  function ElementText(j: Json): string
    requires j.JNull? || Converts(j)
    decreases j, 1
  {
    if j.JNull? then "" else ToText(j)
  }

  /** A truthy value converts to "" exactly when it is an array that is empty or whose
      only element converts to "": the one way a truthy field can leave a pane blank. */
  lemma TruthyTextEmptyIff(j: Json)
    requires IsTruthy(j) && Converts(j)
    ensures ToText(j) == "" <==>
      j.JArray? && (|j.items| == 0 || (|j.items| == 1 && ElementText(j.items[0]) == ""))
  {
    match j
    case JNumber(n) =>
      assert |IntToString(n)| >= 1;
    case JArray(items) =>
      var parts := seq(|items|, i requires 0 <= i < |items| => ElementText(items[i]));
      JoinEmptyIff(parts, ",");
    case _ =>
  }

  /** The field `body.key` is taken by `||`: the body is an object holding a truthy
      value under that key. */
  predicate FieldTaken(body: Json, key: string)
  {
    body.JObject? && key in body.members && IsTruthy(body.members[key])
  }

  /** Reading `body.key || d` and converting it with `String` returns: a field that is
      taken converts. */
  predicate FieldConverts(body: Json, key: string)
  {
    FieldTaken(body, key) ==> Converts(body.members[key])
  }

  /** `body.key || d` as the page reads it: `None` when the default is taken (the body
      is not an object, the key is missing or its value is falsy), otherwise the text the
      value converts to. The conversion must not throw. */
  function FieldText(body: Json, key: string): (t: Option<string>)
    requires FieldConverts(body, key)
    ensures t.Some? <==> body.JObject? && key in body.members && IsTruthy(body.members[key])
    ensures t.Some? ==> t.value == ToText(body.members[key])
  {
    if body.JObject? && key in body.members && IsTruthy(body.members[key]) then
      Some(ToText(body.members[key]))
    else None
  }

  /** A non-empty string field reads as itself. */
  lemma StringFieldText(body: Json, key: string, s: string)
    requires body.JObject? && key in body.members && body.members[key] == JString(s)
    ensures s != "" <==> FieldText(body, key).Some?
    ensures s != "" ==> FieldText(body, key) == Some(s)
  {
  }

  /** A number field reads as its decimal text, so `{"k": 5}` shows "5"; a zero takes the
      default. */
  lemma NumberFieldText(body: Json, key: string, n: int)
    requires body.JObject? && key in body.members && body.members[key] == JNumber(n)
    ensures n != 0 <==> FieldText(body, key).Some?
    ensures n > 0 ==> FieldText(body, key) == Some(Digits(n))
    ensures n < 0 ==> FieldText(body, key) == Some("-" + Digits(-n))
  {
  }
}
