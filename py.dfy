/**
 * The slice of Python and library behaviour the routes rely on: JSON request
 * bodies and their truthiness, str() of a body value, raised exceptions, the
 * HTTP answers a Flask view returns, and bson's ObjectId(value) conversion.
 */
module Py {
  import opened Text

  /** A JSON value from a request body (floats, lists and objects are not modelled). */
  datatype Json = JNull | JBool(b: bool) | JInt(i: int) | JStr(s: string)

  /** Python truthiness: `not v` is false exactly for these values. */
  predicate Truthy(v: Json) {
    match v
    case JNull => false
    case JBool(b) => b
    case JInt(i) => i != 0
    case JStr(s) => s != ""
  }

  /** dict.get(key): the value, or None when the key is absent. */
  function Get(body: map<string, Json>, key: string): (v: Json)
    ensures key in body ==> v == body[key]
    ensures key !in body ==> v == JNull
  {
    if key in body then body[key] else JNull
  }

  /** str(v), which is what an f-string inserts. */
  function Str(v: Json): string {
    match v
    case JNull => "None"
    case JBool(b) => if b then "True" else "False"
    case JInt(i) => IntToString(i)
    case JStr(s) => s
  }

  /** The exceptions the modelled code can raise. */
  datatype PyError =
    | ValueError(message: string)   // raise ValueError(result["error"])
    | TypeError                     // a list or str indexed by a str key; a call with too many arguments
    | IndexError                    // indexing past the end of a list
    | KeyError                      // a dict indexed by a missing key
    | UnboundLocalError             // reading a local that was never assigned
    | InvalidId                     // ObjectId(value) of a value that is not an id
    | HttpError(status: int)        // response.raise_for_status()
    | BadZipFile                    // zipfile.ZipFile of bytes that are not an archive

  /** A Python computation either returns a value or raises. */
  datatype Outcome<+T> = Ok(value: T) | Raised(error: PyError)

  datatype Body = PlainText(text: string) | JsonObject(fields: map<string, string>)

  /** What a Flask view returns; an uncaught exception is a raised Outcome instead. */
  datatype Response = Response(status: int, body: Body)

  /** What ObjectId(value) gives: a parsed id (as lower-case hex), a freshly
      generated id (for None), an InvalidId exception (a string that is not 24
      hex digits), or a TypeError (a value that is neither None nor a string). */
  datatype ObjectIdArg = ParsedId(hex: string) | FreshId | BadId | NotText

  predicate IsHexDigit(c: char) {
    '0' <= c <= '9' || 'a' <= c <= 'f' || 'A' <= c <= 'F'
  }

  predicate IsLowerHexDigit(c: char) {
    '0' <= c <= '9' || 'a' <= c <= 'f'
  }

  /** The value of a hex digit, either case. */
  function HexValue(c: char): nat
    requires IsHexDigit(c)
  {
    if '0' <= c <= '9' then c as nat - '0' as nat
    else if 'a' <= c <= 'f' then c as nat - 'a' as nat + 10
    else c as nat - 'A' as nat + 10
  }

  /** The canonical text of an id: each hex digit in lower case, with its value kept. */
  function LowerHex(s: string): (r: string)
    ensures |r| == |s|
    ensures forall i :: 0 <= i < |s| && IsHexDigit(s[i]) ==>
              IsLowerHexDigit(r[i]) && HexValue(r[i]) == HexValue(s[i])
  {
    seq(|s|, i requires 0 <= i < |s| => if 'A' <= s[i] <= 'F' then (s[i] as int + 32) as char else s[i])
  }

  /** bson's ObjectId(v) for the values a JSON body can carry. */
  function ObjectIdOf(v: Json): (r: ObjectIdArg)
    ensures r.FreshId? <==> v == JNull
    ensures r.NotText? <==> !v.JNull? && !v.JStr?
    ensures r.ParsedId? <==> v.JStr? && |v.s| == 24 && forall i :: 0 <= i < |v.s| ==> IsHexDigit(v.s[i])
    ensures r.ParsedId? ==> r.hex == LowerHex(v.s)
  {
    match v
    case JNull => FreshId
    case JStr(s) =>
      if |s| == 24 && forall i :: 0 <= i < |s| ==> IsHexDigit(s[i]) then ParsedId(LowerHex(s)) else BadId
    case _ => NotText
  }

  /** Two lower-case hex digits with the same value are the same digit. */
  lemma LowerHexDigitUnique(a: char, b: char)
    requires IsLowerHexDigit(a) && IsLowerHexDigit(b) && HexValue(a) == HexValue(b)
    ensures a == b
  {
  }

  /** An id is its value, not its text: id strings that differ only in the
      case of their letters name the same record. */
  lemma ObjectIdIgnoresCase(s: string, t: string)
    requires ObjectIdOf(JStr(s)).ParsedId?
    requires |t| == |s|
    requires forall i :: 0 <= i < |s| ==> IsHexDigit(t[i]) && HexValue(t[i]) == HexValue(s[i])
    ensures ObjectIdOf(JStr(t)) == ObjectIdOf(JStr(s))
  {
    var ls, lt := LowerHex(s), LowerHex(t);
    forall i | 0 <= i < |s|
      ensures ls[i] == lt[i]
    {
      LowerHexDigitUnique(ls[i], lt[i]);
    }
    assert ls == lt;
  }
}
