/** The JavaScript notions the email API relies on: optional values, thrown
    errors, JSON-shaped values with their truthiness and `typeof`, and the few
    string operations the service uses (`split`, `replace` with a global
    pattern, `toLowerCase`). */
module JsValues {

  /** An optional property: None stands for `undefined`. */
  datatype Option<+T> = None | Some(value: T)

  /** What a thrown value carries that the callers read: its `message`. */
  datatype Error = Error(message: string)

  /** Either a value or the error that was thrown instead. */
  datatype Result<+T> = Ok(value: T) | Err(error: Error)

  /** JSON-shaped values as they arrive in a request body. Numbers are
      integers here. */
  datatype Json =
    | JNull
    | JBool(b: bool)
    | JNum(n: int)
    | JStr(s: string)
    | JArr(items: seq<Json>)
    | JObj(fields: map<string, Json>)

  /** `!!v` for an optional JSON value. */
  predicate Truthy(v: Option<Json>)
  {
    match v
    case None => false
    case Some(JNull) => false
    case Some(JBool(b)) => b
    case Some(JNum(n)) => n != 0
    case Some(JStr(s)) => s != ""
    case Some(JArr(_)) => true
    case Some(JObj(_)) => true
  }

  /** `typeof v === "object"`: true for null, arrays and objects. */
  predicate IsObject(v: Option<Json>)
  {
    v.Some? && (v.value.JNull? || v.value.JArr? || v.value.JObj?)
  }

  /** `!!s` for an optional string: present and not empty. */
  predicate TruthyStr(s: Option<string>)
  {
    s.Some? && s.value != ""
  }

  /** A map property looked up by key; a missing key reads as `undefined`. */
  function Lookup(m: map<string, string>, key: string): Option<string>
  {
    if key in m then Some(m[key]) else None
  }

  /** `s.split(sep)[0]`: the text in front of the first `sep`, or all of `s`. */
  function BeforeFirst(s: string, sep: char): (r: string)
    ensures r <= s
    ensures sep !in r
    ensures |r| < |s| ==> s[|r|] == sep
  {
    if s == [] || s[0] == sep then [] else [s[0]] + BeforeFirst(s[1..], sep)
  }

  /** The prefix in front of the first `sep` is the only prefix of `s`
      without `sep` that ends at a `sep` or at the end of `s`. */
  lemma BeforeFirstUnique(s: string, sep: char, p: string)
    requires p <= s && sep !in p
    requires |p| == |s| || s[|p|] == sep
    ensures BeforeFirst(s, sep) == p
  {
  }

  /** Applies `f` to every character of `s`. */
  function MapChars(s: string, f: char -> char): (r: string)
    ensures |r| == |s|
    ensures forall i :: 0 <= i < |s| ==> r[i] == f(s[i])
  {
    if s == [] then [] else [f(s[0])] + MapChars(s[1..], f)
  }

  /** `s.replace(/p/g, sub)` for a pattern that matches single characters. */
  function ReplaceEvery(s: string, p: char -> bool, sub: char): (r: string)
    ensures |r| == |s|
    ensures forall i :: 0 <= i < |s| ==> r[i] == (if p(s[i]) then sub else s[i])
    ensures !p(sub) ==> forall i :: 0 <= i < |r| ==> !p(r[i])
  {
    MapChars(s, c => if p(c) then sub else c)
  }

  /** The characters the regular expression class `\s` matches: ECMAScript's
      WhiteSpace and LineTerminator characters. */
  predicate IsJsWhitespace(c: char)
  {
    || c == '\t' || c == '\n' || c == '\U{000B}' || c == '\U{000C}' || c == '\r'
    || c == ' ' || c == '\U{00A0}' || c == '\U{1680}'
    || ('\U{2000}' <= c <= '\U{200A}')
    || c == '\U{2028}' || c == '\U{2029}' || c == '\U{202F}' || c == '\U{205F}'
    || c == '\U{3000}' || c == '\U{FEFF}'
  }

  predicate IsDot(c: char) { c == '.' }

  predicate IsColon(c: char) { c == ':' }

  /** Upper-case letters of the ASCII and Latin-1 ranges. */
  predicate IsUpper(c: char)
  {
    ('A' <= c <= 'Z') || ('\U{00C0}' <= c <= '\U{00DE}' && c != '\U{00D7}')
  }

  /** `toLowerCase` of one character, on the letters IsUpper covers. */
  function LowerChar(c: char): (r: char)
    ensures !IsUpper(r)
    ensures IsUpper(c) ==> r != c
    ensures !IsUpper(c) ==> r == c
  {
    if IsUpper(c) then (c as int + 32) as char else c
  }

  /** `s.toLowerCase()`. */
  function Lower(s: string): (r: string)
    ensures |r| == |s|
    ensures forall i :: 0 <= i < |s| ==> r[i] == LowerChar(s[i])
    ensures forall i :: 0 <= i < |r| ==> !IsUpper(r[i])
  {
    MapChars(s, LowerChar)
  }
}
