/**
 * The recognition policy of the `ReactNativeWebView.postMessage` shim the
 * main process injects into the third-party login page: a structured
 * message yields the first truthy of four alias fields; a message that is
 * not JSON is scanned for the leftmost JWT-shaped substring, that is, a
 * compact serialisation (section 7.1 of RFC 7515) of three segments over
 * the base64url alphabet of section 5 of RFC 4648, the first starting
 * with `eyJ` (the encoding of `{"`).
 */
module TokenRecognition {
  import opened Wrappers
  import opened JsValues

  /** The result of `JSON.parse` on the posted data. */
  datatype Json =
    | JsonObject(fields: map<string, JsValue>)
    | JsonNull
    | JsonScalar  // a number, string or boolean: it has none of the alias properties

  /**
   * What the page passes to `postMessage`: a string with the outcome of
   * parsing it (`None` when `JSON.parse` throws), or a non-string value.
   */
  datatype Posted = Text(raw: string, parsed: Option<Json>) | NonText

  const ALIASES: seq<string> := ["token", "Token", "authToken", "AuthToken"]

  /** Property lookup: a missing key reads as `undefined`. */
  function Get(fields: map<string, JsValue>, name: string): JsValue {
    if name in fields then fields[name] else Undefined
  }

  /** `parsed[n0] || parsed[n1] || …`, kept only when truthy. */
  function FirstTruthy(fields: map<string, JsValue>, names: seq<string>): (r: Option<JsValue>)
    ensures r.None? <==> forall i :: 0 <= i < |names| ==> !Truthy(Get(fields, names[i]))
    ensures r.Some? ==> exists i :: 0 <= i < |names| && r.value == Get(fields, names[i]) && Truthy(r.value)
                          && forall j :: 0 <= j < i ==> !Truthy(Get(fields, names[j]))
    decreases |names|
  {
    if names == [] then None
    else if Truthy(Get(fields, names[0])) then Some(Get(fields, names[0]))
    else
      var r := FirstTruthy(fields, names[1..]);
      assert forall i :: 1 <= i < |names| ==> names[i] == names[1..][i - 1];
      r
  }

  // ------------------------------------------------------ JWT scanner

  /** `[A-Za-z0-9_-]`: the base64url alphabet without padding. */
  predicate IsSegChar(c: char) {
    ('A' <= c <= 'Z') || ('a' <= c <= 'z') || ('0' <= c <= '9') || c == '_' || c == '-'
  }

  predicate AllSeg(s: string, from: int, to: int)
    requires 0 <= from <= to <= |s|
  {
    forall m :: from <= m < to ==> IsSegChar(s[m])
  }

  /**
   * `s[i..j]` matches `eyJ[A-Za-z0-9_-]+\.[A-Za-z0-9_-]+\.[A-Za-z0-9_-]+`
   * with its dots at `p` and `q`, and the greedy last segment cannot be
   * extended.
   */
  predicate MatchWith(s: string, i: int, p: int, q: int, j: int) {
    && 0 <= i && i + 3 < p && p + 1 < q && q + 1 < j <= |s|
    && s[i..i + 3] == "eyJ"
    && s[p] == '.' && s[q] == '.'
    && AllSeg(s, i, p) && AllSeg(s, p + 1, q) && AllSeg(s, q + 1, j)
    && (j == |s| || !IsSegChar(s[j]))
  }

  /** End of the longest run of segment characters starting at `k`. */
  function RunEnd(s: string, k: nat): (e: nat)
    requires k <= |s|
    ensures k <= e <= |s| && AllSeg(s, k, e)
    ensures e == |s| || !IsSegChar(s[e])
    decreases |s| - k
  {
    if k < |s| && IsSegChar(s[k]) then RunEnd(s, k + 1) else k
  }

  /** A maximal run is unique. */
  lemma RunEndUnique(s: string, k: nat, e: nat)
    requires k <= e <= |s| && AllSeg(s, k, e) && (e == |s| || !IsSegChar(s[e]))
    ensures RunEnd(s, k) == e
  {
  }

  datatype Split = Split(firstDot: nat, secondDot: nat, end: nat)

  /** The regular expression tried at position `i` alone. */
  function MatchAt(s: string, i: nat): (r: Option<Split>)
    ensures r.Some? ==> MatchWith(s, i, r.value.firstDot, r.value.secondDot, r.value.end)
    ensures forall p, q, j :: MatchWith(s, i, p, q, j) ==> r == Some(Split(p, q, j))
  {
    if i + 3 <= |s| && s[i..i + 3] == "eyJ" then
      var p := RunEnd(s, i + 3);
      if p > i + 3 && p < |s| && s[p] == '.' then
        var q := RunEnd(s, p + 1);
        if q > p + 1 && q < |s| && s[q] == '.' then
          var j := RunEnd(s, q + 1);
          if j > q + 1 then
            assert AllSeg(s, i, p) by {
              assert forall m :: i <= m < i + 3 ==> s[m] == s[i..i + 3][m - i];
            }
            Some(Split(p, q, j))
          else None
        else None
      else None
    else None
  }

  datatype Found = Found(start: nat, split: Split)

  /** The leftmost match at or after `from`, as `String.prototype.match` finds it. */
  function FirstMatch(s: string, from: nat): (r: Option<Found>)
    ensures r.Some? ==> from <= r.value.start && MatchWith(s, r.value.start, r.value.split.firstDot, r.value.split.secondDot, r.value.split.end)
    ensures r.Some? ==> forall k, p, q, j :: from <= k < r.value.start ==> !MatchWith(s, k, p, q, j)
    ensures r.None? ==> forall k, p, q, j :: from <= k ==> !MatchWith(s, k, p, q, j)
    decreases |s| - from
  {
    if from >= |s| then None
    else match MatchAt(s, from)
      case Some(sp) => Some(Found(from, sp))
      case None => FirstMatch(s, from + 1)
  }

  predicate OccursAt(s: string, k: int, t: string) {
    0 <= k <= |s| - |t| && s[k..k + |t|] == t
  }

  /** `data.includes('eyJ')`. */
  predicate Contains(s: string, t: string) {
    exists k :: 0 <= k <= |s| - |t| && OccursAt(s, k, t)
  }

  /** The `catch` branch: the matched text, if the data mentions `eyJ` and the pattern matches. */
  function ExtractJwt(raw: string): Option<string> {
    if Contains(raw, "eyJ") then
      match FirstMatch(raw, 0)
      case None => None
      case Some(f) => Some(raw[f.start..f.split.end])
    else None
  }

  function JwtValue(raw: string): Option<JsValue> {
    match ExtractJwt(raw)
    case None => None
    case Some(t) => Some(Str(t))
  }

  /** The whole shim: the value it stores in `window.__STEAM_TOKEN__`, if any. */
  function Recognize(data: Posted): (r: Option<JsValue>)
    // a token is a text of the page, never a non-string message or a parsed scalar
    ensures data.NonText? ==> r.None?
    ensures data.Text? && data.parsed == Some(JsonScalar) ==> r.None?
    // whatever is stored is truthy, so the poll loop's `if (token)` accepts it
    ensures r.Some? ==> Truthy(r.value)
  {
    match data
    case NonText => None
    case Text(raw, parsed) =>
      match parsed
      case Some(JsonObject(fields)) => FirstTruthy(fields, ALIASES)
      case Some(JsonScalar) => None
      // property access on `null` throws, which lands in the same catch as a parse error
      case Some(JsonNull) => JwtValue(raw)
      case None => JwtValue(raw)
  }

  // --------------------------------------------------------- properties

  /**
   * A parsed object yields the first truthy alias in the order `token`,
   * `Token`, `authToken`, `AuthToken`, and nothing at all when none is
   * truthy: a JWT inside the raw text is then not looked for.
   */
  lemma RecognizeParsedObject(raw: string, fields: map<string, JsValue>)
    ensures var r := Recognize(Text(raw, Some(JsonObject(fields))));
      && (r.None? <==> forall i :: 0 <= i < 4 ==> !Truthy(Get(fields, ALIASES[i])))
      && (r.Some? ==> exists i :: 0 <= i < 4 && r.value == Get(fields, ALIASES[i]) && Truthy(r.value)
                        && forall j :: 0 <= j < i ==> !Truthy(Get(fields, ALIASES[j])))
  {
  }

  /** The `includes('eyJ')` guard never rejects a text the pattern matches. */
  lemma IncludesGuardIsImplied(s: string, i: int, p: int, q: int, j: int)
    requires MatchWith(s, i, p, q, j)
    ensures Contains(s, "eyJ")
  {
    assert OccursAt(s, i, "eyJ");
  }

  /**
   * On a parse failure, the captured token is exactly the leftmost
   * JWT-shaped substring, and nothing is captured when there is none.
   */
  lemma RecognizeUnparsable(raw: string)
    ensures var r := Recognize(Text(raw, None));
      && (r.Some? ==> exists i, p, q, j :: MatchWith(raw, i, p, q, j) && r.value == Str(raw[i..j])
                        && forall k, p', q', j' :: 0 <= k < i ==> !MatchWith(raw, k, p', q', j'))
      && (r.None? ==> forall i, p, q, j :: !MatchWith(raw, i, p, q, j))
  {
    var f := FirstMatch(raw, 0);
    if f.Some? {
      IncludesGuardIsImplied(raw, f.value.start, f.value.split.firstDot, f.value.split.secondDot, f.value.split.end);
    }
  }
}
