/** The JavaScript value layer the server runs on: JSON values as
    `JSON.parse` yields them, the coercions the program relies on
    (truthiness, `||`, `String(...)`, property reads), `JSON.stringify`,
    and the `Error` objects it throws. */
module JsValues {
  import opened Wrappers

  /** A JSON value. Numbers are integers (see README, "Left out"); an
      object keeps its members in order. `undefined` is not a JSON value:
      where the program may see it, the model uses `Option<Json>`. */
  datatype Json =
    | JNull
    | JBool(b: bool)
    | JNum(n: int)
    | JStr(s: string)
    | JArr(elems: seq<Json>)
    | JObj(fields: seq<Field>)

  datatype Field = Field(key: string, value: Json)

  /** The keys of an object's members. */
  function Keys(fields: seq<Field>): set<string>
  {
    set i | 0 <= i < |fields| :: fields[i].key
  }

  /** The value stored under `key`; of repeated keys the last one wins, as
      in `JSON.parse`. */
  function Lookup(fields: seq<Field>, key: string): (r: Option<Json>)
    ensures r.Some? <==> key in Keys(fields)
  {
    if fields == [] then None
    else if fields[|fields| - 1].key == key then Some(fields[|fields| - 1].value)
    else
      var r := Lookup(fields[..|fields| - 1], key);
      assert Keys(fields) == Keys(fields[..|fields| - 1]) + {fields[|fields| - 1].key};
      r
  }

  /** A key that occurs only at `i` reads back the value stored there. */
  lemma {:induction false} LookupAt(fields: seq<Field>, i: nat)
    requires i < |fields|
    requires forall j :: i < j < |fields| ==> fields[j].key != fields[i].key
    ensures Lookup(fields, fields[i].key) == Some(fields[i].value)
  {
    if i < |fields| - 1 {
      LookupAt(fields[..|fields| - 1], i);
    }
  }

  /** An object whose every key is allowed has only allowed keys. */
  lemma KeysWithin(fields: seq<Field>, allowed: set<string>)
    requires forall i :: 0 <= i < |fields| ==> fields[i].key in allowed
    ensures Keys(fields) <= allowed
  {
  }

  /** A key no member has reads as undefined. */
  lemma LookupAbsent(fields: seq<Field>, key: string)
    requires forall i :: 0 <= i < |fields| ==> fields[i].key != key
    ensures Lookup(fields, key).None?
  {
  }

  /** `v.key` (and `v?.key`) on a value that is not null or undefined. Of
      the keys this program reads, none is a property of a string, number,
      boolean or array, so only objects yield a value. `null?.key` is
      `undefined` too. */
  function Prop(v: Json, key: string): Option<Json>
  {
    if v.JObj? then Lookup(v.fields, key) else None
  }

  /** JavaScript truthiness; `undefined` and `null` are falsy. */
  predicate Truthy(v: Option<Json>)
  {
    match v
    case None => false
    case Some(JNull) => false
    case Some(JBool(b)) => b
    case Some(JNum(n)) => n != 0
    case Some(JStr(s)) => s != ""
    case Some(_) => true
  }

  /** `a || b`: the left operand when it is truthy, else the right one. */
  function Or(a: Option<Json>, b: Option<Json>): Option<Json>
  {
    if Truthy(a) then a else b
  }

  /** `a || b` whose right operand is a value (most often a literal). */
  function OrElse(a: Option<Json>, b: Json): Json
  {
    if Truthy(a) then a.value else b
  }

  /** `a ?? b`: the left operand unless it is null or undefined. */
  function Coalesce(a: Option<Json>, b: Json): Json
  {
    if a.None? || a.value == JNull then b else a.value
  }

  function Digit(d: nat): char
    requires d < 10
  {
    "0123456789"[d]
  }

  function NatToString(n: nat): string
  {
    if n < 10 then [Digit(n)] else NatToString(n / 10) + [Digit(n % 10)]
  }

  /** `String(n)` for an integer, in plain decimal. */
  function IntToString(n: int): string
  {
    if n < 0 then "-" + NatToString(-n) else NatToString(n)
  }

  /** `parts.join(sep)`. */
  function Join(parts: seq<string>, sep: string): string
  {
    if |parts| == 0 then ""
    else if |parts| == 1 then parts[0]
    else parts[0] + sep + Join(parts[1..], sep)
  }

  /** `a` occurs in `b` at offset `k`. */
  predicate InfixAt(a: string, b: string, k: int)
  {
    0 <= k <= |b| - |a| && b[k..k + |a|] == a
  }

  ghost predicate IsInfix(a: string, b: string)
  {
    exists k :: InfixAt(a, b, k)
  }

  /** Every part occurs in the joined string. */
  lemma {:induction false} JoinContainsPart(parts: seq<string>, sep: string, i: nat)
    requires i < |parts|
    ensures IsInfix(parts[i], Join(parts, sep))
  {
    var j := Join(parts, sep);
    if |parts| == 1 || i == 0 {
      assert InfixAt(parts[0], j, 0);
    } else {
      JoinContainsPart(parts[1..], sep, i - 1);
      var rest := Join(parts[1..], sep);
      var k :| InfixAt(parts[i], rest, k);
      var off := |parts[0]| + |sep|;
      assert j == parts[0] + sep + rest;
      assert j[off + k..off + k + |parts[i]|] == rest[k..k + |parts[i]|];
      assert InfixAt(parts[i], j, off + k);
    }
  }

  /** The join of a non-empty list is empty only if every part is. */
  lemma {:induction false} JoinNonEmpty(parts: seq<string>, sep: string, i: nat)
    requires i < |parts| && parts[i] != ""
    ensures Join(parts, sep) != ""
  {
    JoinContainsPart(parts, sep, i);
  }

  /** `String(v)` when it does not throw (see `Unconvertible`);
      `undefined` gives "undefined". */
  function JsString(v: Option<Json>): string
  {
    match v
    case None => "undefined"
    case Some(j) => ValueString(j)
  }

  /** Whether `String(j)` throws. An object with an own `toString` member
      has no callable `toString`, since a JSON value is never a function,
      and its `valueOf`, own or inherited, gives no primitive, so the
      conversion throws a TypeError. An array is joined, which converts
      each member that is not null. */
  predicate StringThrows(j: Json)
  {
    match j
    case JObj(fields) => "toString" in Keys(fields)
    case JArr(elems) => exists i :: 0 <= i < |elems| && elems[i] != JNull && StringThrows(elems[i])
    case _ => false
  }

  /** Whether `String(v)`, `${v}` or the property key `v` throws. */
  predicate Unconvertible(v: Option<Json>)
  {
    v.Some? && StringThrows(v.value)
  }

  /** The TypeError V8 throws for a value `StringThrows` names. */
  const CannotConvertToPrimitive := JsError("TypeError", "Cannot convert object to primitive value", None, None, false)

  /** `String(j)` when it does not throw: an array is joined with commas,
      its null members becoming the empty string; any other object is
      "[object Object]". */
  function ValueString(j: Json): string
  {
    match j
    case JNull => "null"
    case JBool(b) => if b then "true" else "false"
    case JNum(n) => IntToString(n)
    case JStr(s) => s
    case JArr(elems) =>
      Join(seq(|elems|, i requires 0 <= i < |elems| => if elems[i] == JNull then "" else ValueString(elems[i])), ",")
    case JObj(_) => "[object Object]"
  }

  function HexDigit(d: nat): char
    requires d < 16
  {
    "0123456789abcdef"[d]
  }

  /** How `JSON.stringify` writes one character inside a string literal. */
  function EscapeChar(c: char): string
  {
    if c == '"' then "\\\""
    else if c == '\\' then "\\\\"
    else if c as int == 8 then "\\b"
    else if c as int == 12 then "\\f"
    else if c == '\n' then "\\n"
    else if c == '\r' then "\\r"
    else if c == '\t' then "\\t"
    else if (c as int) < 0x20 then "\\u00" + [HexDigit(c as int / 16), HexDigit(c as int % 16)]
    else [c]
  }

  function Escape(s: string): string
  {
    if s == [] then "" else EscapeChar(s[0]) + Escape(s[1..])
  }

  function Quote(s: string): string
  {
    "\"" + Escape(s) + "\""
  }

  /** `JSON.stringify(j)` without indentation, the members of an object in
      text order; a repeated key is written each time it appears. */
  function Stringify(j: Json): string
  {
    match j
    case JNull => "null"
    case JBool(b) => if b then "true" else "false"
    case JNum(n) => IntToString(n)
    case JStr(s) => Quote(s)
    case JArr(elems) =>
      "[" + Join(seq(|elems|, i requires 0 <= i < |elems| => Stringify(elems[i])), ",") + "]"
    case JObj(fields) =>
      "{" + Join(seq(|fields|, i requires 0 <= i < |fields| => Quote(fields[i].key) + ":" + Stringify(fields[i].value)), ",") + "}"
  }

  /** `JSON.stringify(v)` placed in a template literal: `undefined` has no
      JSON text and prints as "undefined". */
  function StringifyOrUndefined(v: Option<Json>): string
  {
    if v.None? then "undefined" else Stringify(v.value)
  }

  /** What an upstream HTTP failure carries in `err.response`. */
  datatype UpstreamResponse = UpstreamResponse(status: int, data: Option<Json>)

  /** A thrown `Error` object: its `name`, `message`, the `code` property
      the program sets or the HTTP client attaches, and, for failures of the
      HTTP client, `response` and whether a `request` was sent. */
  datatype JsError = JsError(
    name: string,
    message: string,
    code: Option<Json>,
    response: Option<UpstreamResponse>,
    request: bool)

  /** `String(err)` for an `Error`: `Error.prototype.toString`. */
  function ErrorToString(e: JsError): string
  {
    if e.name == "" then e.message
    else if e.message == "" then e.name
    else e.name + ": " + e.message
  }

  /** `const err = new Error(message); err.code = code;` */
  function ErrorWithCode(message: string, code: Json): JsError
  {
    JsError("Error", message, Some(code), None, false)
  }

  /** The TypeError V8 throws for `holder.key` when `holder` is null or
      undefined. */
  function CannotReadProperty(holder: Option<Json>, key: string): JsError
  {
    JsError("TypeError", "Cannot read properties of " + JsString(holder) + " (reading '" + key + "')", None, None, false)
  }

  /** The TypeError V8 throws for calling `callee` when it is not a
      function. */
  function NotAFunction(callee: string): JsError
  {
    JsError("TypeError", callee + " is not a function", None, None, false)
  }

  /** How an expression ends: with a value or with a thrown error. */
  datatype Completion<+T> = Normal(value: T) | Throw(error: JsError)

  /** `xs.map(f)`: every element mapped in order, or the error of the first
      element whose mapping throws. */
  function MapAll(f: Json -> Completion<Json>, xs: seq<Json>): (r: Completion<seq<Json>>)
    ensures r.Normal? <==> forall i :: 0 <= i < |xs| ==> f(xs[i]).Normal?
    ensures r.Normal? ==> |r.value| == |xs| && forall i :: 0 <= i < |xs| ==> r.value[i] == f(xs[i]).value
    ensures r.Throw? ==> exists i :: 0 <= i < |xs| && f(xs[i]) == Throw(r.error) && forall j :: 0 <= j < i ==> f(xs[j]).Normal?
  {
    if xs == [] then Normal([])
    else
      match f(xs[0])
      case Throw(e) => Throw(e)
      case Normal(y) =>
        match MapAll(f, xs[1..])
        case Throw(e) =>
          assert forall i :: 1 <= i < |xs| ==> xs[i] == xs[1..][i - 1];
          Throw(e)
        case Normal(ys) =>
          assert forall i :: 1 <= i < |xs| ==> xs[i] == xs[1..][i - 1];
          Normal([y] + ys)
  }
}
