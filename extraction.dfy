/**
 * Post-processing of the image model's reply: locating the JSON object in
 * the reply text, filling defaults for missing fields, clamping the
 * confidence, and the separate `validateEventDetails` check. The model
 * call, `JSON.parse`, `Date` parsing and `toISOString` are outside the
 * model and enter as parameters.
 */
module Extraction {
  import opened Wrappers
  import opened Text

  /** `ExtractedEventDetails` as the extractor returns it: every field filled in. */
  datatype ExtractedEventDetails = ExtractedEventDetails(
    title: string,
    description: string,
    startDate: string,
    endDate: string,
    location: string,
    confidence: real)

  /** The object `JSON.parse` yields from the span; a field that is absent or `null` is `None`. */
  datatype RawDetails = RawDetails(
    title: Option<string>,
    description: Option<string>,
    startDate: Option<string>,
    endDate: Option<string>,
    location: Option<string>,
    confidence: Option<real>)

  /** The single error the extractor rethrows, whatever went wrong inside it. */
  datatype ExtractError = ExtractionFailed

  const UntitledEvent := "Untitled Event"
  const DefaultConfidence: real := 0.5
  const TwoHoursMs := 2 * 60 * 60 * 1000

  function FirstIndexOf(s: string, c: char): (r: Option<nat>)
    ensures r.None? <==> c !in s
    ensures r.Some? ==> r.value < |s| && s[r.value] == c && c !in s[..r.value]
  {
    if s == [] then None
    else if s[0] == c then Some(0)
    else
      match FirstIndexOf(s[1..], c)
      case None => None
      case Some(i) => assert s[..i + 1] == [s[0]] + s[1..][..i]; Some(i + 1)
  }

  function LastIndexOf(s: string, c: char): (r: Option<nat>)
    ensures r.None? <==> c !in s
    ensures r.Some? ==> r.value < |s| && s[r.value] == c && c !in s[r.value + 1..]
  {
    if s == [] then None
    else if s[|s| - 1] == c then Some(|s| - 1)
    else
      var init := s[..|s| - 1];
      assert s == init + [s[|s| - 1]];
      match LastIndexOf(init, c)
      case None => None
      case Some(i) => assert s[i + 1..] == init[i + 1..] + [s[|s| - 1]]; Some(i)
  }

  /**
   * The match of `/\{[\s\S]*\}/`: leftmost, so it starts at the first `{`,
   * and greedy, so it ends at the last `}`. There is a match exactly when
   * some `{` comes before some `}`.
   */
  function JsonSpan(text: string): (r: Option<string>)
    ensures r.Some? <==> exists i, j :: 0 <= i < j < |text| && text[i] == '{' && text[j] == '}'
    ensures r.Some? ==> |r.value| >= 2 && r.value[0] == '{' && r.value[|r.value| - 1] == '}'
  {
    match (FirstIndexOf(text, '{'), LastIndexOf(text, '}'))
    case (Some(i), Some(j)) =>
      if i < j then Some(text[i..j + 1])
      else
        assert forall a, b :: 0 <= a < b < |text| && text[a] == '{' ==> text[b] != '}' by {
          forall a, b | 0 <= a < b < |text| && text[a] == '{' ensures text[b] != '}' {
            if j < b { assert text[j + 1..][b - j - 1] == text[b]; }
          }
        }
        None
    case (Some(i), None) => None
    case (None, _) => None
  }

  /** The span runs from the first `{` to the last `}`, whatever lies between. */
  lemma JsonSpanGreedy(text: string, i: nat, j: nat)
    requires i < j < |text| && text[i] == '{' && text[j] == '}'
    requires '{' !in text[..i] && '}' !in text[j + 1..]
    ensures JsonSpan(text) == Some(text[i..j + 1])
  {
    var fi := FirstIndexOf(text, '{');
    var lj := LastIndexOf(text, '}');
    assert fi.value <= i;
    assert lj.value >= j;
  }

  /** Prose before and after the object is cut away, provided it contains no brace of the kind that matters. */
  lemma JsonSpanInProse(prose: string, json: string, trailer: string)
    requires |json| >= 2 && json[0] == '{' && json[|json| - 1] == '}'
    requires '{' !in prose && '}' !in trailer
    ensures JsonSpan(prose + json + trailer) == Some(json)
  {
    var text := prose + json + trailer;
    var i, j := |prose|, |prose| + |json| - 1;
    assert text[..i] == prose;
    assert text[j + 1..] == trailer;
    assert text[i..j + 1] == json;
    JsonSpanGreedy(text, i, j);
  }

  /** Two objects in one reply are not separated: the span covers both and what lies between. */
  lemma JsonSpanSpansTwoObjects()
    ensures JsonSpan("{\"a\":1} and {\"b\":2}") == Some("{\"a\":1} and {\"b\":2}")
  {
    var text := "{\"a\":1} and {\"b\":2}";
    assert '}' !in text[|text|..];
    JsonSpanGreedy(text, 0, |text| - 1);
    assert text[0..|text|] == text;
  }

  /** `value || fallback` for a string field. */
  function OrElse(v: Option<string>, fallback: string): (r: string)
    ensures Truthy(v) ==> r == v.value
    ensures !Truthy(v) ==> r == fallback
  {
    if Truthy(v) then v.value else fallback
  }

  function Min(a: real, b: real): real { if a <= b then a else b }
  function Max(a: real, b: real): real { if a >= b then a else b }

  /** `Math.max(0, Math.min(1, confidence || 0.5))`. */
  function Confidence(c: Option<real>): (r: real)
    ensures 0.0 <= r <= 1.0
    ensures (c.None? || c.value == 0.0) ==> r == DefaultConfidence
    ensures c.Some? && c.value != 0.0 && 0.0 <= c.value <= 1.0 ==> r == c.value
    ensures c.Some? && c.value > 1.0 ==> r == 1.0
    ensures c.Some? && c.value < 0.0 ==> r == 0.0
  {
    var v := if c.Some? && c.value != 0.0 then c.value else DefaultConfidence;
    Max(0.0, Min(1.0, v))
  }

  /**
   * The record returned from the parsed object. `now` is `Date.now()` and
   * `iso` stands for `Date.prototype.toISOString` on a millisecond count.
   */
  function PostProcess(raw: RawDetails, now: int, iso: int -> string): (d: ExtractedEventDetails)
    ensures d.title != ""
    ensures Truthy(raw.title) ==> d.title == raw.title.value
    ensures !Truthy(raw.title) ==> d.title == UntitledEvent
    ensures d.description == OrElse(raw.description, "") && d.location == OrElse(raw.location, "")
    ensures !Truthy(raw.startDate) ==> d.startDate == iso(now)
    // the fallback end is two hours after the current time, not after the start
    ensures !Truthy(raw.endDate) ==> d.endDate == iso(now + TwoHoursMs)
    ensures Truthy(raw.startDate) ==> d.startDate == raw.startDate.value
    ensures Truthy(raw.endDate) ==> d.endDate == raw.endDate.value
    ensures d.confidence == Confidence(raw.confidence)
    ensures 0.0 <= d.confidence <= 1.0
  {
    ExtractedEventDetails(
      OrElse(raw.title, UntitledEvent),
      OrElse(raw.description, ""),
      OrElse(raw.startDate, iso(now)),
      OrElse(raw.endDate, iso(now + TwoHoursMs)),
      OrElse(raw.location, ""),
      Confidence(raw.confidence))
  }

  /** The default end does not depend on the start: changing only the start leaves it alone. */
  lemma DefaultEndIgnoresStart(raw: RawDetails, start: Option<string>, now: int, iso: int -> string)
    requires !Truthy(raw.endDate)
    ensures PostProcess(raw.(startDate := start), now, iso).endDate == PostProcess(raw, now, iso).endDate
  {
  }

  /**
   * `extractEventDetailsFromImage` after the model call: `reply` is the
   * model's reply text (`None` when the call failed), `parse` stands for
   * `JSON.parse` (`None` when it throws).
   */
  function ExtractEventDetails(reply: Option<string>, parse: string -> Option<RawDetails>, now: int,
                               iso: int -> string): (r: Result<ExtractedEventDetails, ExtractError>)
    ensures r.Success? <==> reply.Some? && JsonSpan(reply.value).Some? && parse(JsonSpan(reply.value).value).Some?
    ensures r.Success? ==> r.value == PostProcess(parse(JsonSpan(reply.value).value).value, now, iso)
    ensures r.Success? ==> r.value.title != "" && 0.0 <= r.value.confidence <= 1.0
  {
    if reply.None? then Failure(ExtractionFailed)
    else
      match JsonSpan(reply.value)
      case None => Failure(ExtractionFailed)
      case Some(span) =>
        match parse(span)
        case None => Failure(ExtractionFailed)
        case Some(raw) => Success(PostProcess(raw, now, iso))
  }

  /**
   * `validateEventDetails`: `parseDate` stands for `new Date(s).getTime()`,
   * `None` for `NaN`.
   */
  function ValidateEventDetails(d: ExtractedEventDetails, parseDate: string -> Option<int>): (ok: bool)
    ensures ok <==>
      && (exists i :: 0 <= i < |d.title| && !IsSpace(d.title[i]))
      && d.startDate != "" && d.endDate != ""
      && parseDate(d.startDate).Some? && parseDate(d.endDate).Some?
      && parseDate(d.startDate).value < parseDate(d.endDate).value
  {
    TrimEmptyIffAllSpace(d.title);
    if d.title == "" || |Trim(d.title)| == 0 then false
    else if d.startDate == "" || d.endDate == "" then false
    else
      match (parseDate(d.startDate), parseDate(d.endDate))
      case (Some(start), Some(end)) => start < end
      case _ => false
  }

  /**
   * The defaults can produce a record the validator rejects: with no end in
   * the reply and a start at least two hours in the future, the default end
   * is not after the start.
   */
  lemma DefaultEndCanFailValidation(raw: RawDetails, now: int, iso: int -> string,
                                    parseDate: string -> Option<int>, start: int)
    requires Truthy(raw.startDate) && !Truthy(raw.endDate)
    requires parseDate(raw.startDate.value) == Some(start) && start >= now + TwoHoursMs
    requires parseDate(iso(now + TwoHoursMs)) == Some(now + TwoHoursMs)
    ensures !ValidateEventDetails(PostProcess(raw, now, iso), parseDate)
  {
    var d := PostProcess(raw, now, iso);
    assert d.startDate == raw.startDate.value && d.endDate == iso(now + TwoHoursMs);
  }
}
