/** The post-processing block of `getWritingSuggestions` (src/agent.ts:275-308):
    from the model's reply content to the list of `WritingSuggestion`s, with
    every JavaScript coercion it performs on the parsed value. */
module Suggestions {
  import opened Wrappers
  import opened JsonValue
  import opened Types
  import opened Strings
  import opened Filtering

  /** The `type` string of each kind. */
  function KindName(k: SuggestionType): string {
    match k
    case Grammar => "grammar"
    case Style => "style"
    case Clarity => "clarity"
    case Conciseness => "conciseness"
    case Tone => "tone"
    case Other => "other"
  }

  /** The kind a `type` string names; anything else is `other`. */
  function KindNamed(s: string): SuggestionType {
    if s == "grammar" then Grammar
    else if s == "style" then Style
    else if s == "clarity" then Clarity
    else if s == "conciseness" then Conciseness
    else if s == "tone" then Tone
    else Other
  }

  /** `s.type && [...names].includes(s.type) ? s.type : 'other'`: a `type`
      field that is exactly one of the six names gives that kind, anything
      else (missing, not a string, unknown name) gives `other`. */
  function KindOf(entry: Json): (k: SuggestionType)
    ensures forall t :: Member(entry, "type") == Some(Str(KindName(t))) ==> k == t
    ensures k != Other ==> Member(entry, "type") == Some(Str(KindName(k)))
  {
    match Member(entry, "type")
    case Some(Str(s)) => KindNamed(s)
    case _ => Other
  }

  /** `Math.min(Math.max(c, 0), 1)`. */
  function Clamp(c: real): (r: real)
    ensures 0.0 <= r <= 1.0
    ensures 0.0 <= c <= 1.0 ==> r == c
    ensures c < 0.0 ==> r == 0.0
    ensures c > 1.0 ==> r == 1.0
  {
    var low := if c > 0.0 then c else 0.0;
    if low < 1.0 then low else 1.0
  }

  /** The filter: a truthy object whose `originalText` and `suggestedText`
      are truthy. */
  predicate Keep(entry: Json) {
    IsTruthyObject(entry) && TruthyMember(entry, "originalText") && TruthyMember(entry, "suggestedText")
  }

  /** `Array.isArray(parsed) ? parsed : parsed.suggestions || []`, followed by
      the `.filter` lookup on the result: reading a property of `null`
      throws, and a truthy `suggestions` that is not an array has no
      `filter` method. The two failure messages are the TypeError wordings
      of Node's V8 engine; other engines word them differently. */
  function Candidates(parsed: Json): (r: Result<seq<Json>, string>)
    ensures parsed.Arr? ==> r == Success(parsed.items)
    ensures parsed.Null? ==> r.Failure?
    ensures !parsed.Arr? && !parsed.Null? && !TruthyMember(parsed, "suggestions") ==> r == Success([])
    ensures !parsed.Arr? && TruthyMember(parsed, "suggestions") ==>
              (r.Success? <==> Member(parsed, "suggestions").value.Arr?)
              && (r.Success? ==> r.value == Member(parsed, "suggestions").value.items)
  {
    if parsed.Arr? then Success(parsed.items)
    else if parsed.Null? then Failure("Cannot read properties of null (reading 'suggestions')")
    else if !TruthyMember(parsed, "suggestions") then Success([])
    else
      match Member(parsed, "suggestions").value
      case Arr(items) => Success(items)
      case _ => Failure("suggestions.filter is not a function")
  }

  /** The entries the filter keeps, in their order. */
  function Kept(items: seq<Json>): seq<Json> {
    Filter(items, Keep)
  }

  /** The map callback on one kept entry: `String(...)` of the two texts and
      of a truthy explanation (each may throw), the clamped confidence when
      it is a number, the position when it is a truthy object. How numbers
      are rendered is `showNumber`. */
  function Shape(entry: Json, showNumber: real -> string): (r: Result<WritingSuggestion, string>)
    requires Keep(entry)
  {
    var original := ToJsString(Member(entry, "originalText").value, showNumber);
    var suggested := ToJsString(Member(entry, "suggestedText").value, showNumber);
    var explanation :=
      if TruthyMember(entry, "explanation")
      then ToJsString(Member(entry, "explanation").value, showNumber)
      else Success("");
    if original.Failure? then Failure(original.error)
    else if suggested.Failure? then Failure(suggested.error)
    else if explanation.Failure? then Failure(explanation.error)
    else
      var confidence := match Member(entry, "confidence")
        case Some(Num(c)) => Some(Clamp(c))
        case _ => None;
      var position := match Member(entry, "position")
        case Some(p) => if IsTruthyObject(p) then Some(p) else None
        case None => None;
      Success(WritingSuggestion(
        KindOf(entry), original.value, suggested.value,
        if TruthyMember(entry, "explanation") then Some(explanation.value) else None,
        confidence, position))
  }

  /** Shaping throws exactly when one of the `String(...)` conversions
      throws; otherwise each field of the suggestion is read, converted and
      clamped from the entry as the map callback does it. */
  lemma ShapeSpec(entry: Json, showNumber: real -> string)
    requires Keep(entry)
    ensures Shape(entry, showNumber).Failure? <==>
              || ToJsString(Member(entry, "originalText").value, showNumber).Failure?
              || ToJsString(Member(entry, "suggestedText").value, showNumber).Failure?
              || (TruthyMember(entry, "explanation")
                  && ToJsString(Member(entry, "explanation").value, showNumber).Failure?)
    ensures Shape(entry, showNumber).Success? ==>
              var w := Shape(entry, showNumber).value;
              && w.kind == KindOf(entry)
              && Success(w.originalText) == ToJsString(Member(entry, "originalText").value, showNumber)
              && Success(w.suggestedText) == ToJsString(Member(entry, "suggestedText").value, showNumber)
              && (w.explanation.Some? <==> TruthyMember(entry, "explanation"))
              && (w.explanation.Some? ==>
                    Success(w.explanation.value) == ToJsString(Member(entry, "explanation").value, showNumber))
              && (w.confidence.Some? <==> Member(entry, "confidence").Some? && Member(entry, "confidence").value.Num?)
              && (w.confidence.Some? ==>
                    0.0 <= w.confidence.value <= 1.0
                    && w.confidence.value == Clamp(Member(entry, "confidence").value.n))
              && (w.position.Some? <==> Member(entry, "position").Some? && IsTruthyObject(Member(entry, "position").value))
              && (w.position.Some? ==> w.position == Member(entry, "position"))
  {
  }

  /** `.filter(...).map(...)`: the kept entries shaped in order, or the first
      exception the map raises. */
  function Normalise(items: seq<Json>, showNumber: real -> string): (r: Result<seq<WritingSuggestion>, string>)
    ensures r.Success? ==> |r.value| == |Kept(items)| <= |items|
    decreases |items|
  {
    if items == [] then Success([])
    else if !Keep(items[0]) then
      Normalise(items[1..], showNumber)
    else
      var rest := Normalise(items[1..], showNumber);
      match Shape(items[0], showNumber)
      case Failure(e) => Failure(e)
      case Success(w) =>
        if rest.Failure? then rest else Success([w] + rest.value)
  }

  /** Each suggestion is the shape of the kept entry at the same position. */
  lemma {:induction false} NormaliseElements(items: seq<Json>, showNumber: real -> string)
    ensures var r := Normalise(items, showNumber);
            r.Success? ==> forall k :: 0 <= k < |r.value| ==>
              Keep(Kept(items)[k]) && Shape(Kept(items)[k], showNumber) == Success(r.value[k])
    decreases |items|
  {
    if items != [] {
      var tail := items[1..];
      NormaliseElements(tail, showNumber);
      var r := Normalise(items, showNumber);
      if Keep(items[0]) && r.Success? {
        var rest := Normalise(tail, showNumber).value;
        var w := Shape(items[0], showNumber).value;
        assert r.value == [w] + rest;
        assert Kept(items) == [items[0]] + Kept(tail);
        forall k | 0 <= k < |r.value|
          ensures Keep(Kept(items)[k]) && Shape(Kept(items)[k], showNumber) == Success(r.value[k])
        {
          if k > 0 {
            assert Kept(items)[k] == Kept(tail)[k - 1] && r.value[k] == rest[k - 1];
          }
        }
      }
    }
  }

  /** The map throws exactly when shaping one of the kept entries throws. */
  lemma {:induction false} NormaliseFailure(items: seq<Json>, showNumber: real -> string)
    ensures Normalise(items, showNumber).Failure? <==>
              exists k :: 0 <= k < |Kept(items)| && Keep(Kept(items)[k]) && Shape(Kept(items)[k], showNumber).Failure?
    decreases |items|
  {
    if items != [] {
      NormaliseFailure(items[1..], showNumber);
      var tail := Kept(items[1..]);
      if !Keep(items[0]) {
        assert Kept(items) == tail;
      } else {
        assert Kept(items) == [items[0]] + tail;
        assert Kept(items)[0] == items[0];
        assert forall k :: 0 <= k < |tail| ==> Kept(items)[k + 1] == tail[k];
        if Shape(items[0], showNumber).Success? && Normalise(items[1..], showNumber).Success? {
          assert forall k :: 0 <= k < |Kept(items)| ==> k == 0 || Kept(items)[k] == tail[k - 1];
        }
      }
    }
  }

  /** What the model's reply content turns into: the suggestions, or, when
      parsing or post-processing throws, none and the error to report. */
  datatype Parsed = Parsed(suggestions: seq<WritingSuggestion>, error: Option<string>)

  const ParseFailure := "Failed to parse writing suggestions: "

  /** `response.choices[0]?.message?.content?.trim() ?? "[]"`. */
  function ReplyText(message: Option<Completion>): (text: string)
    ensures message.None? || message.value.content.None? ==> text == "[]"
    ensures message.Some? && message.value.content.Some? ==> text == Trim(message.value.content.value)
  {
    if message.Some? && message.value.content.Some? then Trim(message.value.content.value) else "[]"
  }

  /** The inner `try`: parse, select the candidate entries, filter and shape
      them; any exception gives no suggestions and the message to report. */
  function FromContent(text: string, parseJson: string -> Result<Json, string>, showNumber: real -> string): (p: Parsed)
    ensures p.error.Some? ==> p.suggestions == []
    ensures parseJson(text).Failure? ==> p == Parsed([], Some(ParseFailure + parseJson(text).error))
    ensures parseJson(text).Success? && Candidates(parseJson(text).value).Failure? ==>
              p == Parsed([], Some(ParseFailure + Candidates(parseJson(text).value).error))
    ensures parseJson(text).Success? && Candidates(parseJson(text).value).Success? ==>
              var items := Candidates(parseJson(text).value).value;
              && (p.error.None? <==> Normalise(items, showNumber).Success?)
              && (p.error.None? ==> p.suggestions == Normalise(items, showNumber).value && |p.suggestions| <= |items|)
  {
    match parseJson(text)
    case Failure(e) => Parsed([], Some(ParseFailure + e))
    case Success(parsed) =>
      match Candidates(parsed)
      case Failure(e) => Parsed([], Some(ParseFailure + e))
      case Success(items) =>
        match Normalise(items, showNumber)
        case Failure(e) => Parsed([], Some(ParseFailure + e))
        case Success(ws) => Parsed(ws, None)
  }

  // ---------------------------------------------------------------------
  // Round trip

  /** A suggestion as the agent's own output can hold it: non-empty texts,
      a non-empty explanation when there is one, a confidence in [0, 1] and
      an object position. */
  predicate WellFormed(w: WritingSuggestion) {
    && w.originalText != "" && w.suggestedText != ""
    && (w.explanation.Some? ==> w.explanation.value != "")
    && (w.confidence.Some? ==> 0.0 <= w.confidence.value <= 1.0)
    && (w.position.Some? ==> IsTruthyObject(w.position.value))
  }

  /** A suggestion written out as the JSON object the prompt asks for. */
  function Encode(w: WritingSuggestion): (j: Json)
    ensures j.Obj?
  {
    var fields := map["type" := Str(KindName(w.kind)), "originalText" := Str(w.originalText),
                      "suggestedText" := Str(w.suggestedText)];
    var fields := if w.explanation.Some? then fields["explanation" := Str(w.explanation.value)] else fields;
    var fields := if w.confidence.Some? then fields["confidence" := Num(w.confidence.value)] else fields;
    var fields := if w.position.Some? then fields["position" := w.position.value] else fields;
    Obj(fields)
  }

  function EncodeAll(ws: seq<WritingSuggestion>): (items: seq<Json>)
    ensures |items| == |ws|
    ensures forall k :: 0 <= k < |ws| ==> items[k] == Encode(ws[k])
  {
    seq(|ws|, k requires 0 <= k < |ws| => Encode(ws[k]))
  }

  lemma KindRoundTrip(k: SuggestionType)
    ensures KindNamed(KindName(k)) == k
  {
  }

  /** Shaping the encoding of a well-formed suggestion gives it back. */
  lemma ShapeEncode(w: WritingSuggestion, showNumber: real -> string)
    requires WellFormed(w)
    ensures Keep(Encode(w)) && Shape(Encode(w), showNumber) == Success(w)
  {
    var j := Encode(w);
    KindRoundTrip(w.kind);
    assert Member(j, "type") == Some(Str(KindName(w.kind)));
    assert Member(j, "originalText") == Some(Str(w.originalText));
    assert Member(j, "suggestedText") == Some(Str(w.suggestedText));
    assert Member(j, "explanation") == if w.explanation.Some? then Some(Str(w.explanation.value)) else None;
    assert Member(j, "confidence") == if w.confidence.Some? then Some(Num(w.confidence.value)) else None;
    assert Member(j, "position") == w.position;
  }

  /** Both reply layouts the code accepts, a bare array and an object with
      a `suggestions` array, select the same entries. */
  lemma CandidatesOfList(items: seq<Json>)
    ensures Candidates(Arr(items)) == Success(items)
    ensures Candidates(Obj(map["suggestions" := Arr(items)])) == Success(items)
  {
    assert Member(Obj(map["suggestions" := Arr(items)]), "suggestions") == Some(Arr(items));
  }

  /** Well-formed suggestions survive being written out as JSON and read
      back: nothing is dropped, reordered or altered. */
  lemma RoundTrip(ws: seq<WritingSuggestion>, showNumber: real -> string)
    requires forall k :: 0 <= k < |ws| ==> WellFormed(ws[k])
    ensures Normalise(EncodeAll(ws), showNumber) == Success(ws)
  {
    var items := EncodeAll(ws);
    forall k | 0 <= k < |ws|
      ensures Keep(items[k]) && Shape(items[k], showNumber) == Success(ws[k])
    {
      ShapeEncode(ws[k], showNumber);
    }
    FilterAll(items, Keep);
    NormaliseFailure(items, showNumber);
    NormaliseElements(items, showNumber);
    assert !exists k :: 0 <= k < |items| && Keep(items[k]) && Shape(items[k], showNumber).Failure?;
    var r := Normalise(items, showNumber);
    assert r.Success?;
    assert r.value == ws;
  }

  /** The whole reply path: a reply whose content parses to well-formed
      suggestions, in either layout, yields exactly those suggestions and
      no error. */
  lemma FromContentRoundTrip(text: string, parseJson: string -> Result<Json, string>,
                             showNumber: real -> string, ws: seq<WritingSuggestion>)
    requires forall k :: 0 <= k < |ws| ==> WellFormed(ws[k])
    requires parseJson(text) == Success(Arr(EncodeAll(ws)))
          || parseJson(text) == Success(Obj(map["suggestions" := Arr(EncodeAll(ws))]))
    ensures FromContent(text, parseJson, showNumber) == Parsed(ws, None)
  {
    CandidatesOfList(EncodeAll(ws));
    RoundTrip(ws, showNumber);
  }

  // ---------------------------------------------------------------------
  // The request

  /** The optional second argument of `getWritingSuggestions`. */
  datatype SuggestionOptions = SuggestionOptions(
    types: Option<seq<string>>,
    model: Option<string>,
    maxSuggestions: Option<int>)

  /** What the suggestion call sends: the model, the aspects and the
      suggestion budget that the system prompt is written from, and the
      user's text. */
  datatype SuggestionRequest = SuggestionRequest(
    model: string,
    types: seq<string>,
    maxSuggestions: int,
    text: string)

  const DefaultTypes: seq<string> := ["grammar", "style", "clarity", "conciseness", "tone"]
  const DefaultMaxSuggestions := 5
  const SuggestionsStage := "writing_suggestions"
  const ParseStage := "parse_suggestions"
  const GenerationFailure := "Failed to generate writing suggestions: "

  /** Each option falls back with `??`: only a missing value is replaced,
      so an empty model name or an empty list of types is sent as given. */
  function SuggestionRequestFor(defaultModel: Option<string>, text: string, options: SuggestionOptions): (q: SuggestionRequest)
    ensures q.text == text
    ensures options.model.Some? ==> q.model == options.model.value
    ensures options.model.None? && defaultModel.Some? ==> q.model == defaultModel.value
    ensures options.model.None? && defaultModel.None? ==> q.model == "gpt-4o"
    ensures q.types == if options.types.Some? then options.types.value else DefaultTypes
    ensures q.maxSuggestions == if options.maxSuggestions.Some? then options.maxSuggestions.value else DefaultMaxSuggestions
  {
    SuggestionRequest(
      options.model.GetOr(defaultModel.GetOr("gpt-4o")),
      options.types.GetOr(DefaultTypes),
      options.maxSuggestions.GetOr(DefaultMaxSuggestions),
      text)
  }

  /** The `input` reported when the analysis starts. */
  function StartInput(types: seq<string>): string {
    "Analyze text for writing suggestions (types: " + Join(types, ", ") + ")"
  }

  /** The `finalAnswer` reported when it ends. */
  function EndAnswer(count: nat): string {
    "Generated " + NatToString(count) + " writing suggestions"
  }
}
