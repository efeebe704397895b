/** The strict LLM decision schema, the conservative DENY record, fail-to-DENY
    parsing of a model's text response, and the market snapshot's field
    constraints (src/ai_trading/ai/schemas.py). */
module Schemas {
  import opened Wrappers

  datatype Decision = Allow | Deny | Reduce
  datatype Trend = Up | Down | Neutral
  datatype AtrLabel = Low | Normal | High
  datatype EventRisk = Yes | No

  function DecisionName(d: Decision): string
  {
    match d
    case Allow => "ALLOW"
    case Deny => "DENY"
    case Reduce => "REDUCE"
  }

  /** A decision record. `decision` is one of three literals by type, and the
      record has exactly four fields, so "no extra keys" holds by construction;
      the confidence bound is `ValidDecision`. */
  datatype LLMDecision = LLMDecision(
    decision: Decision,
    confidence: real,
    riskFlags: seq<string>,
    keyReasons: seq<string>)

  predicate ValidDecision(d: LLMDecision)
  {
    0.0 <= d.confidence <= 1.0
  }

  /** The conservative answer to anything that is not a valid decision. */
  function DenyDefault(reason: string): (d: LLMDecision)
    ensures ValidDecision(d) && d.decision == Deny && d.confidence == 0.0
    ensures d.riskFlags == ["INVALID_RESPONSE"] && d.keyReasons == [reason]
  {
    LLMDecision(Deny, 0.0, ["INVALID_RESPONSE"], [reason])
  }

  // ---------------------------------------------------------------------------
  // Decoded JSON and schema validation

  /** A decoded JSON value; integers and floats are both numbers. */
  datatype Json =
    | JNull
    | JBool(b: bool)
    | JNum(n: real)
    | JStr(s: string)
    | JArr(items: seq<Json>)
    | JObj(fields: map<string, Json>)

  /** The kinds of validation failure; the first one found is reported. */
  datatype SchemaError =
    | Missing(field: string)
    | NotADecision
    | NotANumber
    | BelowZero
    | AboveOne
    | NotAList(listField: string)
    | NotAString(stringField: string)
    | ExtraKey

  function ErrorMessage(e: SchemaError): string
  {
    match e
    case Missing(_) => "Field required"
    case NotADecision => "Input should be 'ALLOW', 'DENY' or 'REDUCE'"
    case NotANumber => "Input should be a valid number"
    case BelowZero => "Input should be greater than or equal to 0"
    case AboveOne => "Input should be less than or equal to 1"
    case NotAList(_) => "Input should be a valid list"
    case NotAString(_) => "Input should be a valid string"
    case ExtraKey => "Extra inputs are not permitted"
  }

  const SchemaFields: set<string> := {"decision", "confidence", "risk_flags", "key_reasons"}

  function DecisionOf(v: Json): Result<Decision, SchemaError>
  {
    if v == JStr("ALLOW") then Ok(Allow)
    else if v == JStr("DENY") then Ok(Deny)
    else if v == JStr("REDUCE") then Ok(Reduce)
    else Err(NotADecision)
  }

  function ConfidenceOf(v: Json): Result<real, SchemaError>
  {
    match v
    case JNum(n) =>
      if n < 0.0 then Err(BelowZero)
      else if n > 1.0 then Err(AboveOne)
      else Ok(n)
    case _ => Err(NotANumber)
  }

  /** The strings of a JSON array, or None when some element is not a string. */
  function Strings(items: seq<Json>): (r: Option<seq<string>>)
    ensures r.Some? ==> |r.value| == |items|
    ensures r.Some? ==> forall i :: 0 <= i < |items| ==> items[i] == JStr(r.value[i])
  {
    if items == [] then Some([])
    else match items[0]
      case JStr(s) =>
        (match Strings(items[1..])
         case Some(rest) => Some([s] + rest)
         case None => None)
      case _ => None
  }

  /** An optional list-of-strings field; absent means the empty list. */
  function StringListOf(p: map<string, Json>, field: string): (r: Result<seq<string>, SchemaError>)
    ensures field !in p ==> r == Ok([])
    ensures field in p && !p[field].JArr? ==> r == Err(NotAList(field))
    ensures field in p && p[field].JArr? ==>
      r == (if Strings(p[field].items).Some? then Ok(Strings(p[field].items).value) else Err(NotAString(field)))
  {
    if field !in p then Ok([])
    else match p[field]
      case JArr(items) =>
        (match Strings(items)
         case Some(ss) => Ok(ss)
         case None => Err(NotAString(field)))
      case _ => Err(NotAList(field))
  }

  /** A list-of-strings field read as `ss`: absent and `ss` empty, or a JSON
      array holding exactly the strings of `ss`. */
  predicate ListField(p: map<string, Json>, field: string, ss: seq<string>)
  {
    if field in p then p[field].JArr? && Strings(p[field].items) == Some(ss) else ss == []
  }

  /** Model validation: the fields in declaration order, then extra keys. */
  function Validate(p: map<string, Json>): (r: Result<LLMDecision, SchemaError>)
    ensures r.Ok? ==> ValidDecision(r.value)
    ensures r.Ok? ==> p.Keys <= SchemaFields
    ensures r.Ok? ==> "decision" in p && p["decision"] == JStr(DecisionName(r.value.decision))
    ensures r.Ok? ==> "confidence" in p && p["confidence"] == JNum(r.value.confidence)
    ensures r.Ok? ==> ListField(p, "risk_flags", r.value.riskFlags)
    ensures r.Ok? ==> ListField(p, "key_reasons", r.value.keyReasons)
  {
    if "decision" !in p then Err(Missing("decision"))
    else if DecisionOf(p["decision"]).Err? then Err(DecisionOf(p["decision"]).error)
    else if "confidence" !in p then Err(Missing("confidence"))
    else if ConfidenceOf(p["confidence"]).Err? then Err(ConfidenceOf(p["confidence"]).error)
    else if StringListOf(p, "risk_flags").Err? then Err(StringListOf(p, "risk_flags").error)
    else if StringListOf(p, "key_reasons").Err? then Err(StringListOf(p, "key_reasons").error)
    else if !(p.Keys <= SchemaFields) then Err(ExtraKey)
    else
      Ok(LLMDecision(
        DecisionOf(p["decision"]).value,
        ConfidenceOf(p["confidence"]).value,
        StringListOf(p, "risk_flags").value,
        StringListOf(p, "key_reasons").value))
  }

  /** `LLMDecision.parse_strict`: any validation failure becomes a DENY. */
  function ParseStrict(p: map<string, Json>): (d: LLMDecision)
    ensures ValidDecision(d)
    ensures Validate(p).Err? ==>
      d == DenyDefault("schema_validation_error: " + ErrorMessage(Validate(p).error))
    ensures Validate(p).Ok? ==> d == Validate(p).value
  {
    match Validate(p)
    case Ok(d) => d
    case Err(e) => DenyDefault("schema_validation_error: " + ErrorMessage(e))
  }

  /** The JSON object a well-formed model response carries for `d`. */
  function Payload(d: LLMDecision): map<string, Json>
  {
    map[
      "decision" := JStr(DecisionName(d.decision)),
      "confidence" := JNum(d.confidence),
      "risk_flags" := JArr(JStrings(d.riskFlags)),
      "key_reasons" := JArr(JStrings(d.keyReasons))]
  }

  function JStrings(ss: seq<string>): (r: seq<Json>)
    ensures |r| == |ss|
  {
    if ss == [] then [] else [JStr(ss[0])] + JStrings(ss[1..])
  }

  lemma {:induction false} StringsOfJStrings(ss: seq<string>)
    ensures Strings(JStrings(ss)) == Some(ss)
  {
    if ss != [] {
      StringsOfJStrings(ss[1..]);
      assert JStrings(ss)[1..] == JStrings(ss[1..]);
      assert [ss[0]] + ss[1..] == ss;
    }
  }

  /** Round trip: a valid decision, written as its JSON object, parses back
      to itself; validation rejects no valid decision. */
  lemma ParseStrictRoundTrip(d: LLMDecision)
    requires ValidDecision(d)
    ensures Validate(Payload(d)).Ok?
    ensures ParseStrict(Payload(d)) == d
  {
    StringsOfJStrings(d.riskFlags);
    StringsOfJStrings(d.keyReasons);
    var p := Payload(d);
    assert p.Keys == SchemaFields;
    assert DecisionOf(p["decision"]) == Ok(d.decision) by {
      match d.decision
      case Allow =>
      case Deny =>
      case Reduce =>
    }
  }

  /** A list field that is not a JSON array of strings is a validation
      error, so the decision is the DENY default whatever else it holds. */
  lemma BadListFieldIsDenied(p: map<string, Json>, field: string)
    requires field == "risk_flags" || field == "key_reasons"
    requires field in p && (!p[field].JArr? || Strings(p[field].items).None?)
    ensures Validate(p).Err?
    ensures ParseStrict(p).decision == Deny
    ensures "INVALID_RESPONSE" in ParseStrict(p).riskFlags
  {
  }

  /** The behaviour of the schema's own test: the non-numeric confidence "bad" is refused. */
  lemma StringConfidenceIsDenied(p: map<string, Json>)
    requires "decision" in p && p["decision"] == JStr("ALLOW")
    requires "confidence" in p && p["confidence"] == JStr("bad")
    ensures ParseStrict(p).decision == Deny
    ensures "INVALID_RESPONSE" in ParseStrict(p).riskFlags
  {
  }

  // ---------------------------------------------------------------------------
  // Extracting the JSON object from a model's text

  /** Python's `str.isspace`, which is also what `strip()` and the regular
      expression class `\s` use. */
  predicate IsSpace(c: char)
  {
    c == ' ' || ('\t' <= c <= '\r') || ('\U{1C}' <= c <= '\U{1F}')
    || c == '\U{85}' || c == '\U{A0}' || c == '\U{1680}'
    || ('\U{2000}' <= c <= '\U{200A}') || c == '\U{2028}' || c == '\U{2029}'
    || c == '\U{202F}' || c == '\U{205F}' || c == '\U{3000}'
  }

  function LeadingSpaces(s: string): (n: nat)
    ensures n <= |s|
    ensures forall k :: 0 <= k < n ==> IsSpace(s[k])
    ensures n < |s| ==> !IsSpace(s[n])
  {
    if s != [] && IsSpace(s[0]) then 1 + LeadingSpaces(s[1..]) else 0
  }

  function TrailingSpaces(s: string): (n: nat)
    ensures n <= |s|
    ensures forall k :: |s| - n <= k < |s| ==> IsSpace(s[k])
    ensures n < |s| ==> !IsSpace(s[|s| - 1 - n])
  {
    if s != [] && IsSpace(s[|s| - 1]) then 1 + TrailingSpaces(s[..|s| - 1]) else 0
  }

  /** `str.strip()`: the text without leading and trailing whitespace. */
  function Strip(s: string): (r: string)
    ensures r == [] <==> forall k :: 0 <= k < |s| ==> IsSpace(s[k])
    ensures r != [] ==> LeadingSpaces(s) + TrailingSpaces(s) < |s|
    ensures r != [] ==> r == s[LeadingSpaces(s)..|s| - TrailingSpaces(s)]
    ensures r != [] ==> !IsSpace(r[0]) && !IsSpace(r[|r| - 1])
  {
    var a := LeadingSpaces(s);
    if a == |s| then []
    else
      var b := TrailingSpaces(s);
      assert !IsSpace(s[a]);
      s[a..|s| - b]
  }

  /** A fence of three backquotes starts at `i`. */
  predicate FenceMark(s: string, i: nat)
  {
    i + 3 <= |s| && s[i] == '`' && s[i + 1] == '`' && s[i + 2] == '`'
  }

  /** The optional `json` tag starts at `i`. */
  predicate JsonTag(s: string, i: nat)
  {
    i + 4 <= |s| && s[i] == 'j' && s[i + 1] == 's' && s[i + 2] == 'o' && s[i + 3] == 'n'
  }

  /** Every index of `s` from `i` up to `j` holds whitespace. */
  predicate SpacesBetween(s: string, i: nat, j: nat)
  {
    i <= j <= |s| && forall m :: i <= m < j ==> IsSpace(s[m])
  }

  /** The first index at or after `i` that is not whitespace (greedy `\s*`,
      `SkipSpacesIsGreedy`). */
  function SkipSpaces(s: string, i: nat): (j: nat)
    requires i <= |s|
    ensures i <= j <= |s|
    decreases |s| - i
  {
    if i < |s| && IsSpace(s[i]) then SkipSpaces(s, i + 1) else i
  }

  /** The skip passes only whitespace and stops at the first non-space. */
  lemma {:induction false} SkipSpacesIsGreedy(s: string, i: nat)
    requires i <= |s|
    ensures SpacesBetween(s, i, SkipSpaces(s, i))
    ensures SkipSpaces(s, i) < |s| ==> !IsSpace(s[SkipSpaces(s, i)])
    decreases |s| - i
  {
    if i < |s| && IsSpace(s[i]) {
      SkipSpacesIsGreedy(s, i + 1);
    }
  }

  /** A `}` at `m` followed by optional whitespace and a closing fence:
      where the tail `\}\s*```` of the fenced pattern can match. */
  predicate ClosesFence(s: string, m: nat)
    requires m < |s|
  {
    s[m] == '}' && FenceMark(s, SkipSpaces(s, m + 1))
  }

  /** The lazy `.*?\}\s*```` tail: the first `}` at or after `k` that is
      followed by optional whitespace and a closing fence. */
  function LazyClose(s: string, k: nat): (r: Option<nat>)
    requires k <= |s|
    ensures r.Some? ==> k <= r.value < |s| && s[r.value] == '}'
    decreases |s| - k
  {
    if k == |s| then None
    else if ClosesFence(s, k) then Some(k)
    else LazyClose(s, k + 1)
  }

  /** `LazyClose` finds the first `}` at or after `k` that closes the
      fence, and None exactly when there is none. */
  lemma {:induction false} LazyCloseIsFirst(s: string, k: nat)
    requires k <= |s|
    ensures LazyClose(s, k).Some? ==> ClosesFence(s, LazyClose(s, k).value)
    ensures LazyClose(s, k).Some? ==> forall m :: k <= m < LazyClose(s, k).value ==> !ClosesFence(s, m)
    ensures LazyClose(s, k).None? <==> forall m :: k <= m < |s| ==> !ClosesFence(s, m)
    decreases |s| - k
  {
    if k < |s| && !ClosesFence(s, k) {
      LazyCloseIsFirst(s, k + 1);
    }
  }

  /** The fenced pattern matches from `p` with its group `(\{.*?\})` spanning
      `o..k`: an opening fence, an optional `json` tag, whitespace, the `{` at
      `o`, and the first `}` after it that is followed by whitespace and a
      closing fence, at `k`. */
  predicate FenceMatch(s: string, p: nat, o: nat, k: nat)
  {
    && FenceMark(s, p)
    && p + 3 <= o < k < |s|
    && (SpacesBetween(s, p + 3, o) || (JsonTag(s, p + 3) && SpacesBetween(s, p + 7, o)))
    && s[o] == '{'
    && ClosesFence(s, k)
    && forall m :: o < m < k ==> !ClosesFence(s, m)
  }

  /** Where the group of a fenced match from `p` opens: after the `json` tag
      when there is one (`j` is neither whitespace nor `{`, so skipping the
      tag cannot match), then after the greedy whitespace. */
  function GroupOpen(s: string, p: nat): nat
    requires FenceMark(s, p)
  {
    SkipSpaces(s, if JsonTag(s, p + 3) then p + 7 else p + 3)
  }

  lemma FenceOpensAtGroupOpen(s: string, p: nat, o: nat, k: nat)
    requires FenceMark(s, p) && FenceMatch(s, p, o, k)
    ensures o == GroupOpen(s, p)
  {
    var q := if JsonTag(s, p + 3) then p + 7 else p + 3;
    SkipSpacesIsGreedy(s, q);
    if JsonTag(s, p + 3) {
      assert s[p + 3] == "json"[0];
      assert !SpacesBetween(s, p + 3, o) by {
        if o > p + 3 {
          assert !IsSpace(s[p + 3]);
        }
      }
    }
    assert SpacesBetween(s, q, o);
  }

  /** No fenced match from `p` when the group cannot open or cannot close. */
  lemma NoFenceMatch(s: string, p: nat)
    requires FenceMark(s, p)
    requires var open := GroupOpen(s, p);
      !(open < |s| && s[open] == '{') || LazyClose(s, open + 1).None?
    ensures forall o: nat, k: nat :: !FenceMatch(s, p, o, k)
  {
    var open := GroupOpen(s, p);
    if open < |s| {
      LazyCloseIsFirst(s, open + 1);
    }
    forall o: nat, k: nat | FenceMatch(s, p, o, k)
      ensures false
    {
      FenceOpensAtGroupOpen(s, p, o, k);
    }
  }

  /** The group of the fenced pattern when a match starts at `p`. */
  function FenceAt(s: string, p: nat): (r: Option<string>)
    requires p <= |s|
    ensures r.Some? ==> |r.value| >= 2 && r.value[0] == '{' && r.value[|r.value| - 1] == '}'
  {
    if !FenceMark(s, p) then None
    else
      var open := GroupOpen(s, p);
      if open < |s| && s[open] == '{' then
        match LazyClose(s, open + 1)
        case Some(k) => Some(s[open..k + 1])
        case None => None
      else None
  }

  /** `FenceAt` is the fenced pattern anchored at `p`: it yields a group
      exactly when the pattern matches there, and the group is the match's
      (which is unique: it opens after the greedy whitespace and closes at
      the first `}` that closes the fence). */
  lemma FenceAtMatches(s: string, p: nat)
    requires p <= |s|
    ensures FenceAt(s, p).Some? ==>
      exists o: nat, k: nat :: FenceMatch(s, p, o, k) && FenceAt(s, p).value == s[o..k + 1]
    ensures FenceAt(s, p).None? ==> forall o: nat, k: nat :: !FenceMatch(s, p, o, k)
  {
    if FenceMark(s, p) {
      var open := GroupOpen(s, p);
      if open < |s| && s[open] == '{' && LazyClose(s, open + 1).Some? {
        SkipSpacesIsGreedy(s, if JsonTag(s, p + 3) then p + 7 else p + 3);
        LazyCloseIsFirst(s, open + 1);
        assert FenceMatch(s, p, open, LazyClose(s, open + 1).value);
      } else {
        NoFenceMatch(s, p);
      }
    }
  }

  /** Where `re.search` finds the fenced pattern: the leftmost start at or
      after `p` at which it matches, or None when no start matches. */
  function FirstFence(s: string, p: nat): (r: Option<nat>)
    requires p <= |s|
    ensures r.Some? ==> p <= r.value <= |s| && FenceAt(s, r.value).Some?
    ensures r.Some? ==> forall m: nat :: p <= m < r.value ==> FenceAt(s, m).None?
    ensures r.None? <==> forall m: nat :: p <= m <= |s| ==> FenceAt(s, m).None?
    decreases |s| - p
  {
    if FenceAt(s, p).Some? then Some(p)
    else if p < |s| then FirstFence(s, p + 1)
    else None
  }

  /** `re.search` with the fenced pattern: the group of its leftmost match. */
  function FencedFrom(s: string, p: nat): (r: Option<string>)
    requires p <= |s|
    ensures r.Some? <==> FirstFence(s, p).Some?
    ensures r.Some? ==> r == FenceAt(s, FirstFence(s, p).value)
  {
    match FirstFence(s, p)
    case Some(m) => FenceAt(s, m)
    case None => None
  }

  function FirstIndexOf(s: string, c: char): (r: Option<nat>)
    ensures r.Some? ==> r.value < |s| && s[r.value] == c
    ensures r.Some? ==> forall k :: 0 <= k < r.value ==> s[k] != c
    ensures r.None? ==> c !in s
  {
    if s == [] then None
    else if s[0] == c then Some(0)
    else match FirstIndexOf(s[1..], c)
      case Some(i) => Some(i + 1)
      case None => None
  }

  function LastIndexOf(s: string, c: char): (r: Option<nat>)
    ensures r.Some? ==> r.value < |s| && s[r.value] == c
    ensures r.Some? ==> forall k :: r.value < k < |s| ==> s[k] != c
    ensures r.None? ==> c !in s
  {
    if s == [] then None
    else if s[|s| - 1] == c then Some(|s| - 1)
    else LastIndexOf(s[..|s| - 1], c)
  }

  /** `re.search(r"\{.*\}", s, re.DOTALL)`: from the first `{` to the last
      `}`, when that `}` comes after it. */
  function BraceSpan(s: string): (r: Option<string>)
    ensures r.Some? ==> |r.value| >= 2 && r.value[0] == '{' && r.value[|r.value| - 1] == '}'
    ensures r.Some? ==> forall c :: c in r.value ==> c in s
    ensures r.None? <==> FirstIndexOf(s, '{').None? || LastIndexOf(s, '}').None?
                         || LastIndexOf(s, '}').value < FirstIndexOf(s, '{').value
    ensures r.Some? ==> r.value == s[FirstIndexOf(s, '{').value..LastIndexOf(s, '}').value + 1]
  {
    match (FirstIndexOf(s, '{'), LastIndexOf(s, '}'))
    case (Some(i), Some(j)) => if i < j then Some(s[i..j + 1]) else None
    case _ => None
  }

  predicate IsBraced(s: string)
  {
    s != [] && s[0] == '{' && s[|s| - 1] == '}'
  }

  /** A `{` before a `}` gives the widest brace span. */
  lemma BraceSpanOfPair(s: string, o: nat, k: nat)
    requires o < k < |s| && s[o] == '{' && s[k] == '}'
    ensures BraceSpan(s).Some?
  {
    assert s[o] in s && s[k] in s;
  }

  /** A fenced group is a `{` before a `}`, so the brace span exists too. */
  lemma FencedHasBraceSpan(s: string)
    requires FencedFrom(s, 0).Some?
    ensures BraceSpan(s).Some?
  {
    var m := FirstFence(s, 0).value;
    FenceAtMatches(s, m);
    var o: nat, k: nat :| FenceMatch(s, m, o, k) && FenceAt(s, m).value == s[o..k + 1];
    BraceSpanOfPair(s, o, k);
  }

  /** A fenced group starts with `{` and ends with `}`. */
  lemma FencedIsBraced(s: string)
    requires FencedFrom(s, 0).Some?
    ensures IsBraced(FencedFrom(s, 0).value)
  {
    var m := FirstFence(s, 0).value;
    assert FencedFrom(s, 0) == FenceAt(s, m);
  }

  /** The text that `_extract_json_obj` hands to the JSON decoder, by
      precedence: the whole stripped text when it is braced, else the
      leftmost fenced group, else the widest brace span. Only the first form
      that matches is ever decoded. */
  function JsonCandidate(text: string): (r: Option<string>)
    ensures IsBraced(Strip(text)) ==> r == Some(Strip(text))
    ensures !IsBraced(Strip(text)) && FencedFrom(Strip(text), 0).Some? ==> r == FencedFrom(Strip(text), 0)
    ensures !IsBraced(Strip(text)) && FencedFrom(Strip(text), 0).None? ==> r == BraceSpan(Strip(text))
    ensures r.Some? ==> IsBraced(r.value)
  {
    var stripped := Strip(text);
    if IsBraced(stripped) then Some(stripped)
    else
      var fenced := FencedFrom(stripped, 0);
      if fenced.Some? then FencedIsBraced(stripped); fenced
      else
        var span := BraceSpan(stripped);
        assert span.Some? ==> IsBraced(span.value);
        span
  }

  /** There is nothing to decode exactly when the stripped text has no `{`
      before a `}`: each of the three forms is such a pair. */
  lemma NoCandidateIffNoBraceSpan(text: string)
    ensures JsonCandidate(text).None? <==> BraceSpan(Strip(text)).None?
  {
    var stripped := Strip(text);
    if IsBraced(stripped) {
      BraceSpanOfPair(stripped, 0, |stripped| - 1);
    } else if FencedFrom(stripped, 0).Some? {
      FencedHasBraceSpan(stripped);
    }
  }

  /** A decoded value must be an object. */
  function ObjectOf(decoded: Result<Json, string>): Result<map<string, Json>, string>
  {
    match decoded
    case Err(msg) => Err(msg)
    case Ok(JObj(fields)) => Ok(fields)
    case Ok(_) => Err("model_response_json_not_object")
  }

  /** `_extract_json_obj`; `loads` is the JSON decoder, whose failure message
      (a `ValueError`) is passed on. Without a `{` before a `}` nothing is
      decoded; otherwise the selected text is (`ExtractJsonObjPrecedence`),
      and it must decode to an object. */
  function ExtractJsonObj(text: string, loads: string -> Result<Json, string>): (r: Result<map<string, Json>, string>)
    ensures BraceSpan(Strip(text)).None? ==> r == Err("model_response_not_json")
    ensures JsonCandidate(text).Some? ==> r == ObjectOf(loads(JsonCandidate(text).value))
    ensures r.Ok? ==> JsonCandidate(text).Some? && loads(JsonCandidate(text).value) == Ok(JObj(r.value))
  {
    NoCandidateIffNoBraceSpan(text);
    match JsonCandidate(text)
    case Some(candidate) => ObjectOf(loads(candidate))
    case None => Err("model_response_not_json")
  }

  /** The precedence of `_extract_json_obj`: the braced stripped text is
      decoded first, else the leftmost fenced group, else the widest brace
      span. */
  lemma ExtractJsonObjPrecedence(text: string, loads: string -> Result<Json, string>)
    ensures var stripped := Strip(text);
      && (IsBraced(stripped) ==> ExtractJsonObj(text, loads) == ObjectOf(loads(stripped)))
      && (!IsBraced(stripped) && FencedFrom(stripped, 0).Some? ==>
            ExtractJsonObj(text, loads) == ObjectOf(loads(FencedFrom(stripped, 0).value)))
      && (!IsBraced(stripped) && FencedFrom(stripped, 0).None? && BraceSpan(stripped).Some? ==>
            ExtractJsonObj(text, loads) == ObjectOf(loads(BraceSpan(stripped).value)))
  {
  }

  /** `LLMDecision.parse_response_text`: never fails, always a valid decision. */
  function ParseResponseText(text: string, loads: string -> Result<Json, string>): (d: LLMDecision)
    ensures ValidDecision(d)
    ensures ExtractJsonObj(text, loads).Err? ==> d == DenyDefault(ExtractJsonObj(text, loads).error)
    ensures ExtractJsonObj(text, loads).Ok? ==> d == ParseStrict(ExtractJsonObj(text, loads).value)
  {
    match ExtractJsonObj(text, loads)
    case Err(msg) => DenyDefault(msg)
    case Ok(obj) => ParseStrict(obj)
  }

  /** Only the first matching form is decoded: two decoders that agree on it
      give the same answer, whatever they do with the other forms. */
  lemma OnlyFirstFormDecoded(text: string, loads1: string -> Result<Json, string>, loads2: string -> Result<Json, string>)
    requires JsonCandidate(text).Some? ==> loads1(JsonCandidate(text).value) == loads2(JsonCandidate(text).value)
    ensures ParseResponseText(text, loads1) == ParseResponseText(text, loads2)
  {
  }

  /** A response without any `{` is DENY with reason `model_response_not_json`,
      whatever the decoder would have said. */
  lemma NoBraceIsDenied(text: string, loads: string -> Result<Json, string>)
    requires '{' !in text
    ensures ParseResponseText(text, loads) == DenyDefault("model_response_not_json")
  {
    var stripped := Strip(text);
    assert '{' !in stripped by {
      if stripped != [] {
        assert forall c :: c in stripped ==> c in text[LeadingSpaces(text)..];
      }
    }
    assert BraceSpan(stripped).None?;
  }

  /** Stripping removes exactly the whitespace around a text whose own ends
      are not whitespace. */
  lemma StripSurrounded(pre: string, body: string, post: string)
    requires forall k :: 0 <= k < |pre| ==> IsSpace(pre[k])
    requires forall k :: 0 <= k < |post| ==> IsSpace(post[k])
    requires body != [] && !IsSpace(body[0]) && !IsSpace(body[|body| - 1])
    ensures Strip(pre + body + post) == body
  {
    var s := pre + body + post;
    assert forall k :: 0 <= k < |pre| ==> s[k] == pre[k];
    assert forall k :: 0 <= k < |post| ==> s[|pre| + |body| + k] == post[k];
    assert s[|pre|] == body[0];
    assert s[|pre| + |body| - 1] == body[|body| - 1];
    assert LeadingSpaces(s) == |pre|;
    assert TrailingSpaces(s) == |post|;
    assert s[|pre|..|s| - |post|] == body;
  }

  /** A JSON object surrounded by whitespace, as the schema's own test sends
      it, parses to the decision it encodes. */
  lemma WrappedObjectParses(pre: string, body: string, post: string, d: LLMDecision,
                            loads: string -> Result<Json, string>)
    requires forall k :: 0 <= k < |pre| ==> IsSpace(pre[k])
    requires forall k :: 0 <= k < |post| ==> IsSpace(post[k])
    requires IsBraced(body) && ValidDecision(d)
    requires loads(body) == Ok(JObj(Payload(d)))
    ensures ParseResponseText(pre + body + post, loads) == d
  {
    StripSurrounded(pre, body, post);
    ParseStrictRoundTrip(d);
  }

  /** No `}` before `hi` closes the fence when no backquote occurs from `lo`
      to `hi` and `hi` holds no whitespace. */
  lemma NoCloseBefore(s: string, lo: nat, hi: nat)
    requires lo <= hi < |s| && !IsSpace(s[hi])
    requires forall m :: lo <= m <= hi ==> s[m] != '`'
    ensures forall m: nat :: lo <= m < hi ==> !ClosesFence(s, m)
  {
    forall m: nat | lo <= m < hi
      ensures !ClosesFence(s, m)
    {
      SkipSpacesIsGreedy(s, m + 1);
    }
  }

  /** A fence at `p` tagged `json`, one whitespace, and a group from `p + 8`
      to `k` whose `}` is followed by one whitespace and the closing fence at
      the end, with no backquote inside the group: that group is the match. */
  lemma FenceAtBlock(s: string, p: nat, k: nat)
    requires p + 9 <= k && k + 5 == |s|
    requires FenceMark(s, p) && JsonTag(s, p + 3) && IsSpace(s[p + 7]) && s[p + 8] == '{'
    requires s[k] == '}' && IsSpace(s[k + 1]) && FenceMark(s, k + 2)
    requires forall m :: p + 8 <= m <= k ==> s[m] != '`'
    ensures FenceAt(s, p) == Some(s[p + 8..k + 1])
  {
    assert SkipSpaces(s, p + 8) == p + 8;
    assert GroupOpen(s, p) == p + 8;
    assert SkipSpaces(s, k + 2) == k + 2;
    assert SkipSpaces(s, k + 1) == k + 2;
    assert ClosesFence(s, k);
    NoCloseBefore(s, p + 8, k);
    LazyCloseIsFirst(s, p + 9);
  }

  /** No fence starts where there is no backquote. */
  lemma NoFenceBefore(s: string, p: nat)
    requires p <= |s|
    requires forall m :: 0 <= m < p ==> s[m] != '`'
    ensures forall m: nat :: m < p ==> FenceAt(s, m).None?
  {
  }

  /** The layout of a fenced `json` block after prose: what `FenceAtBlock`
      and `NoFenceBefore` need. */
  lemma BlockLayout(prose: string, body: string)
    requires '`' !in prose && '`' !in body && IsBraced(body)
    ensures var s := prose + "```json\n" + body + "\n```";
      var p := |prose|;
      var k := p + 8 + |body| - 1;
      && p + 9 <= k && k + 5 == |s|
      && FenceMark(s, p) && JsonTag(s, p + 3) && IsSpace(s[p + 7]) && s[p + 8] == '{'
      && s[k] == '}' && IsSpace(s[k + 1]) && FenceMark(s, k + 2)
      && (forall m :: p + 8 <= m <= k ==> s[m] != '`')
      && (forall m :: 0 <= m < p ==> s[m] != '`')
      && s[p + 8..k + 1] == body
  {
    var a := prose + "```json\n";
    var b := a + body;
    var s := b + "\n```";
    var p := |prose|;
    assert forall m :: 0 <= m < |b| ==> s[m] == b[m];
    assert forall m :: 0 <= m < |a| ==> b[m] == a[m];
    assert forall m :: 0 <= m < p ==> a[m] == prose[m];
    assert forall m :: 0 <= m < |body| ==> b[|a| + m] == body[m];
    assert b[|a|..] == body;
  }

  /** Stripping keeps a fenced block after prose that starts with no
      whitespace. */
  lemma BlockStrips(prose: string, body: string)
    requires prose == [] || !IsSpace(prose[0])
    ensures var s := prose + "```json\n" + body + "\n```";
      Strip(s) == s && !IsBraced(s)
  {
    var s := prose + "```json\n" + body + "\n```";
    assert s[|s| - 1] == '`';
    assert s[0] == if prose == [] then '`' else prose[0];
    StripSurrounded([], s, []);
    assert [] + s + [] == s;
  }

  /** A fenced `json` block after prose without backquotes: the block's
      object is what gets decoded, whatever braces the prose holds. */
  lemma FencedBlockAfterProse(prose: string, body: string, loads: string -> Result<Json, string>)
    requires prose == [] || !IsSpace(prose[0])
    requires '`' !in prose && '`' !in body && IsBraced(body)
    ensures ExtractJsonObj(prose + "```json\n" + body + "\n```", loads) == ObjectOf(loads(body))
  {
    var s := prose + "```json\n" + body + "\n```";
    var p := |prose|;
    BlockLayout(prose, body);
    BlockStrips(prose, body);
    FenceAtBlock(s, p, p + 8 + |body| - 1);
    NoFenceBefore(s, p);
    assert FirstFence(s, 0) == Some(p);
    assert JsonCandidate(s) == Some(body);
  }

  // ---------------------------------------------------------------------------
  // Market snapshot

  /** The input the decision provider sees. `candidate_type` and
      `position_side` are constants of the schema and are not modelled. */
  datatype MarketSnapshot = MarketSnapshot(
    symbol: string,
    trend: Trend,
    atrQuantile: real,
    atrLabel: AtrLabel,
    fundingRate: Option<real>,
    fundingAvailable: bool,
    openInterest: Option<real>,
    openInterestAvailable: bool,
    eventRisk: EventRisk,
    indicators: map<string, real>)

  /** `^[A-Z0-9]+$` */
  predicate IsSymbol(s: string)
  {
    |s| > 0 && forall i :: 0 <= i < |s| ==> ('A' <= s[i] <= 'Z' || '0' <= s[i] <= '9')
  }

  predicate ValidSnapshot(m: MarketSnapshot)
  {
    IsSymbol(m.symbol) && 0.0 <= m.atrQuantile <= 1.0
  }

  /** Constructing a snapshot validates it, as the schema does. */
  function NewSnapshot(
    symbol: string, trend: Trend, atrQuantile: real, atrLabel: AtrLabel,
    fundingRate: Option<real>, fundingAvailable: bool,
    openInterest: Option<real>, openInterestAvailable: bool,
    indicators: map<string, real>): (r: Result<MarketSnapshot, string>)
    ensures r.Ok? <==> IsSymbol(symbol) && 0.0 <= atrQuantile <= 1.0
    ensures r.Ok? ==> ValidSnapshot(r.value) && r.value.eventRisk == No
    ensures r.Ok? ==> r.value.symbol == symbol && r.value.trend == trend
                      && r.value.atrQuantile == atrQuantile && r.value.atrLabel == atrLabel
                      && r.value.fundingRate == fundingRate && r.value.fundingAvailable == fundingAvailable
                      && r.value.openInterest == openInterest
                      && r.value.openInterestAvailable == openInterestAvailable
                      && r.value.indicators == indicators
  {
    if !IsSymbol(symbol) then Err("snapshot_validation_error: symbol")
    else if !(0.0 <= atrQuantile <= 1.0) then Err("snapshot_validation_error: atr_quantile")
    else Ok(MarketSnapshot(symbol, trend, atrQuantile, atrLabel, fundingRate, fundingAvailable,
                           openInterest, openInterestAvailable, No, indicators))
  }
}
