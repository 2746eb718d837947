/**
 * The "Try the model" page: a form of eleven measurement fields plus a
 * pitch type and a handedness, turned into the JSON posted to the Stuff+
 * handler, and the page state that follows the handler's reply.
 */
module TryModel {
  import opened Results
  import opened Numerals
  import opened Text
  import opened Js
  import StuffPlus

  /** The keys of the measurement fields, in the order the form shows them. */
  const FieldKeys: seq<string> := [
    "release_speed", "pfx_x", "pfx_z", "release_extension", "release_spin_rate", "spin_axis",
    "release_pos_x", "release_pos_z", "fb_velo", "fb_ivb", "fb_hmov"]

  /** The result card: the two properties of the reply the page shows. */
  datatype Shown = Shown(stuffPlus: Value, percentile: Value)

  /** The page state: the selections, the text of each field, and the outcome of the last submit. */
  datatype Form = Form(
    pitchType: string, handedness: string, values: map<string, string>,
    result: Option<Shown>, loading: bool, error: Option<string>)

  /** The state on first render: fastball, right-handed, every field empty. */
  function Initial(): (f: Form)
    ensures f.values.Keys == set k | k in FieldKeys
    ensures forall k :: k in f.values ==> f.values[k] == ""
    ensures f.pitchType == "FF" && f.handedness == "R"
    ensures f.result.None? && !f.loading && f.error.None?
  {
    Form("FF", "R", map k | k in FieldKeys :: "", None, false, None)
  }

  /** Typing into a field: that field alone changes, and any shown result or error is cleared. */
  function HandleChange(f: Form, key: string, val: string): (g: Form)
    ensures key in g.values && g.values[key] == val
    ensures g.values.Keys == f.values.Keys + {key}
    ensures forall k :: k in f.values && k != key ==> g.values[k] == f.values[k]
    ensures g.result.None? && g.error.None?
    ensures g.pitchType == f.pitchType && g.handedness == f.handedness && g.loading == f.loading
  {
    f.(values := f.values[key := val], result := None, error := None)
  }

  /** The request the page builds; `numbers` holds the measurement fields. */
  datatype Payload = Payload(pitchType: string, handedness: string, numbers: map<string, Number>)

  /** `parseFloat(values[key]) || 0`; a missing entry reads as undefined, i.e. the text "undefined". */
  function FieldNumber(h: Host, values: map<string, string>, key: string): (n: Number)
    ensures !n.NaN?
    ensures key in values && !h.parseFloat(values[key]).NaN? ==> n == h.parseFloat(values[key])
    ensures key in values && h.parseFloat(values[key]).NaN? ==> n == Finite(0.0)
  {
    var parsed := h.parseFloat(if key in values then values[key] else "undefined");
    if parsed.NaN? || parsed == Finite(0.0) then Finite(0.0) else parsed
  }

  /** `pitchType.trim().toUpperCase()`: no white space at either end, no lower-case letter. */
  function PitchCode(s: string): (r: string)
    ensures forall i :: 0 <= i < |r| ==> !IsLowerAscii(r[i])
    ensures 0 < |r| ==> !IsJsSpace(r[0]) && !IsJsSpace(r[|r| - 1])
    ensures r == Upper(Trim(s))
  {
    UpperKeepsTrim(s);
    Upper(Trim(s))
  }

  /** Every measurement field, parsed. */
  function FieldNumbers(h: Host, values: map<string, string>): (m: map<string, Number>)
    ensures m.Keys == set k | k in FieldKeys
    ensures forall k :: k in m ==> !m[k].NaN?
    ensures forall k :: k in m ==> m[k] == FieldNumber(h, values, k)
  {
    map k | k in FieldKeys :: FieldNumber(h, values, k)
  }

  /** The payload of `handleSubmit`: trimmed, upper-cased selections, handedness collapsed
      to "L" only for exactly "L", and every field a number that is never NaN. */
  function BuildPayload(h: Host, f: Form): (p: Payload)
    ensures p.numbers.Keys == set k | k in FieldKeys
    ensures forall k :: k in p.numbers ==> !p.numbers[k].NaN?
    ensures forall i :: 0 <= i < |p.pitchType| ==> !IsLowerAscii(p.pitchType[i])
    ensures 0 < |p.pitchType| ==> !IsJsSpace(p.pitchType[0]) && !IsJsSpace(p.pitchType[|p.pitchType| - 1])
    ensures p.handedness == "L" || p.handedness == "R"
    ensures p.handedness == "L" <==> Upper(Trim(f.handedness)) == "L"
    ensures p.pitchType == Upper(Trim(f.pitchType))
    ensures forall k :: k in p.numbers ==> p.numbers[k] == FieldNumber(h, f.values, k)
  {
    Payload(
      PitchCode(f.pitchType),
      if Upper(Trim(f.handedness)) == "L" then "L" else "R",
      FieldNumbers(h, f.values))
  }

  /** White space typed around the selections never reaches the request. */
  lemma PayloadIgnoresPadding(h: Host, f: Form, c: char)
    requires IsJsSpace(c)
    ensures BuildPayload(h, f.(pitchType := [c] + f.pitchType, handedness := [c] + f.handedness))
            == BuildPayload(h, f)
    ensures BuildPayload(h, f.(pitchType := f.pitchType + [c], handedness := f.handedness + [c]))
            == BuildPayload(h, f)
  {
    TrimIgnoresPadding(f.pitchType, c);
    TrimIgnoresPadding(f.handedness, c);
  }

  /** Typing into one measurement field changes that number of the next request and no other. */
  lemma PayloadTracksTyping(h: Host, f: Form, key: string, val: string)
    requires key in FieldKeys
    ensures var p := BuildPayload(h, f);
            var q := BuildPayload(h, HandleChange(f, key, val));
            && q.pitchType == p.pitchType && q.handedness == p.handedness
            && q.numbers.Keys == p.numbers.Keys
            && (forall k :: k in p.numbers && k != key ==> q.numbers[k] == p.numbers[k])
            && q.numbers[key] == (if h.parseFloat(val).NaN? then Finite(0.0) else h.parseFloat(val))
  {
    var g := HandleChange(f, key, val);
    var p, q := BuildPayload(h, f), BuildPayload(h, g);
    forall k | k in p.numbers && k != key
      ensures q.numbers[k] == p.numbers[k]
    {
      FieldNumberElsewhere(h, f.values, key, val, k);
    }
    assert q.numbers[key] == FieldNumber(h, g.values, key);
  }

  /** A field's number depends on that field's text alone. */
  lemma FieldNumberElsewhere(h: Host, values: map<string, string>, key: string, val: string, k: string)
    requires k != key
    ensures FieldNumber(h, values[key := val], k) == FieldNumber(h, values, k)
  {
  }

  /** Decimal text in a field is sent as its value; an empty field is sent as 0. */
  lemma FieldNumberCases(h: Host, values: map<string, string>, key: string)
    requires Lawful(h)
    requires key in values
    ensures IsDecimal(values[key]) ==> FieldNumber(h, values, key) == Finite(DecimalValue(values[key]))
    ensures values[key] == "" ==> FieldNumber(h, values, key) == Finite(0.0)
  {
  }

  /** The JSON the handler receives: `JSON.stringify` writes a non-finite number as null. */
  function Encode(p: Payload): (body: Value)
    ensures Field(body, "pitchType") == Str(p.pitchType)
    ensures Field(body, "handedness") == Str(p.handedness)
    ensures forall k :: k in p.numbers && k != "pitchType" && k != "handedness" ==>
              Field(body, k) == StuffPlus.Wire(p.numbers[k])
    ensures forall k :: k !in p.numbers && k != "pitchType" && k != "handedness" ==> Field(body, k) == Undefined
    ensures forall k :: Converts(Field(body, k))
  {
    Record((map k | k in p.numbers :: StuffPlus.Wire(p.numbers[k]))
             ["pitchType" := Str(p.pitchType)]["handedness" := Str(p.handedness)])
  }

  lemma SnakeKeysAreFields(m: StuffPlus.Measurement)
    ensures StuffPlus.SnakeKey(m) in FieldKeys
    ensures StuffPlus.CamelKey(m) !in FieldKeys
    ensures StuffPlus.CamelKey(m) != "pitchType" && StuffPlus.CamelKey(m) != "handedness"
    ensures StuffPlus.SnakeKey(m) != "pitchType" && StuffPlus.SnakeKey(m) != "handedness"
  {
  }

  /** The two halves agree: the handler reads back exactly what the page sent, except
      that an infinite field (typed as "Infinity") arrives as null and so counts as 0. */
  lemma HandlerReadsPagePayload(h: Host, f: Form, m: StuffPlus.Measurement)
    ensures var p := BuildPayload(h, f);
            var sent := p.numbers[StuffPlus.SnakeKey(m)];
            StuffPlus.ReadMeasurement(h, Encode(p), m) == if sent.Finite? then sent else Finite(0.0)
  {
    SnakeKeysAreFields(m);
    var p := BuildPayload(h, f);
    var body := Encode(p);
    assert Field(body, StuffPlus.SnakeKey(m)) == StuffPlus.Wire(p.numbers[StuffPlus.SnakeKey(m)]);
    assert Field(body, StuffPlus.CamelKey(m)) == Undefined;
  }

  /** The handler keeps the page's pitch type unchanged ... */
  lemma HandlerKeepsPagePitchType(h: Host, f: Form)
    ensures StuffPlus.ReadPitchType(h, Encode(BuildPayload(h, f))) == BuildPayload(h, f).pitchType
  {
    var p := BuildPayload(h, f);
    assert Field(Encode(p), "pitchType") == Str(p.pitchType);
    UpperIdempotent(Trim(f.pitchType));
  }

  /** ... and its handedness too. */
  lemma HandlerKeepsPageHandedness(h: Host, f: Form)
    ensures StuffPlus.ReadThrows(h, Encode(BuildPayload(h, f))) == BuildPayload(h, f).handedness
  {
    var p := BuildPayload(h, f);
    assert Field(Encode(p), "handedness") == Str(p.handedness);
    assert StuffPlus.Throws("L") == "L" && StuffPlus.Throws("R") == "R";
  }

  /** Submitting starts loading and clears the previous outcome. */
  function BeginSubmit(f: Form): (g: Form)
    ensures g.loading && g.result.None? && g.error.None?
    ensures g.values == f.values && g.pitchType == f.pitchType && g.handedness == f.handedness
  {
    f.(loading := true, result := None, error := None)
  }

  /** How the handler's reply reached the page: not at all, or with a status and the
      outcome of `res.json()`. */
  datatype Answer = Unreachable(message: string) | Answered(ok: bool, data: Result<Value>)

  /** The message of the Error the page raises, if any, for an answer. */
  function FailureOf(h: Host, a: Answer): Option<string> {
    match a
    case Unreachable(message) => Some(message)
    case Answered(ok, data) =>
      match data
      case Fail(message) => Some(message)
      case Ok(v) =>
        if IsNullish(v) then Some(h.typeError(if ok then "stuffPlus" else "error"))
        else if !ok then Some(ErrorMessage(h, Coalesce(Field(v, "error"), Str("Prediction failed"))))
        else None
  }

  /** The end of `handleSubmit`: a result on success, an error message otherwise, and
      loading switched off either way. */
  function FinishSubmit(h: Host, f: Form, a: Answer): (g: Form)
  {
    match FailureOf(h, a)
    case Some(message) => f.(error := Some(message), loading := false)
    case None => f.(result := Some(Shown(Field(a.data.value, "stuffPlus"), Field(a.data.value, "percentile"))),
                    loading := false)
  }

  /** A whole submit: exactly one of result and error is set afterwards, loading is off,
      and a refusal shows the handler's `error` text or "Prediction failed". */
  function Submit(h: Host, f: Form, a: Answer): (g: Form)
    ensures !g.loading
    ensures g.values == f.values && g.pitchType == f.pitchType && g.handedness == f.handedness
    ensures g.result.Some? <==> FailureOf(h, a).None?
    ensures g.error == FailureOf(h, a)
    ensures a.Answered? && !a.ok && a.data.Ok? && !IsNullish(a.data.value) && Field(a.data.value, "error").Str?
            ==> g.error == Some(Field(a.data.value, "error").s)
    ensures a.Answered? && !a.ok && a.data.Ok? && !IsNullish(a.data.value) && IsNullish(Field(a.data.value, "error"))
            ==> g.error == Some("Prediction failed")
    ensures a.Answered? && !a.ok && a.data.Ok? && !IsNullish(a.data.value) && !IsNullish(Field(a.data.value, "error"))
            ==> g.error == Some(ErrorMessage(h, Field(a.data.value, "error")))
    ensures a.Unreachable? ==> g.error == Some(a.message)
    ensures a.Answered? && a.data.Fail? ==> g.error == Some(a.data.message)
    ensures a.Answered? && a.data.Ok? && IsNullish(a.data.value)
            ==> g.error == Some(h.typeError(if a.ok then "stuffPlus" else "error"))
    ensures a.Answered? && a.ok && a.data.Ok? && !IsNullish(a.data.value) ==> g.error.None?
    ensures FailureOf(h, a).None? ==>
              g.result == Some(Shown(Field(a.data.value, "stuffPlus"), Field(a.data.value, "percentile")))
  {
    FinishSubmit(h, BeginSubmit(f), a)
  }

  /** What the handler replies is what the page shows: the score and percentile of a
      success, the message of a failure. */
  lemma PageShowsHandlerReply(h: Host, f: Form, r: StuffPlus.Reply)
    ensures var g := Submit(h, f, Answered(200 <= StuffPlus.ReplyStatus(r) <= 299, Ok(StuffPlus.ReplyBody(r))));
            && (r.Scored? ==>
                  g.error.None? && g.result == Some(Shown(StuffPlus.Wire(r.stuffPlus), Num(Finite(r.percentile)))))
            && (r.Failed? && r.status == 500 ==> g.result.None? && g.error == Some(r.error))
  {
  }
}
