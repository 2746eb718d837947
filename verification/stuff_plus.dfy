/**
 * The Stuff+ proxy: it reads a pitch's tracking measurements from a JSON
 * body under either naming convention, coerces every number totally,
 * converts inches to feet with the sign flips of the tracking device, asks
 * the prediction service for a score and turns the score into a percentile.
 */
module StuffPlus {
  import opened Results
  import opened Numerals
  import opened Text
  import opened Js
  import opened Percentiles

  const DefaultApi := "https://trackman-scraper-production.up.railway.app"

  /** `process.env.STUFF_PLUS_API_URL ?? DefaultApi`: only an unset variable falls back. */
  function ApiBase(env: Option<string>): string {
    match env
    case Some(url) => url
    case None => DefaultApi
  }

  function PredictUrl(env: Option<string>): (url: string)
    ensures env.Some? ==> url == env.value + "/predict"
    ensures env.None? ==> url == "https://trackman-scraper-production.up.railway.app/predict"
  {
    ApiBase(env) + "/predict"
  }

  /** `toNum`: coercion to a number that is never NaN, for a value `Number(..)` accepts
      (on any other, `Number(v)` throws). */
  function ToNum(h: Host, v: Value): (r: Number)
    requires Converts(v)
    ensures !r.NaN?
    ensures ToNumber(h, v).NaN? ==> r == Finite(0.0)
    ensures !ToNumber(h, v).NaN? ==> r == ToNumber(h, v)
  {
    if v.Num? && !v.n.NaN? then v.n
    else
      var n := ToNumber(h, v);
      if n.NaN? then Finite(0.0) else n
  }

  /** Coercing an already coerced number changes nothing. */
  lemma ToNumIdempotent(h: Host, v: Value)
    requires Converts(v)
    ensures ToNum(h, Num(ToNum(h, v))) == ToNum(h, v)
  {
  }

  /** What the coercion makes of each kind of input on a lawful host. */
  lemma ToNumCases(h: Host, s: string, x: real)
    requires Lawful(h)
    ensures IsDecimal(s) ==> ToNum(h, Str(s)) == Finite(DecimalValue(s))
    ensures StartsWithWord(s) ==> ToNum(h, Str(s)) == Finite(0.0)
    ensures ToNum(h, Str("")) == Finite(0.0)
    ensures ToNum(h, Undefined) == Finite(0.0)
    ensures ToNum(h, Null) == Finite(0.0)
    ensures ToNum(h, Bool(true)) == Finite(1.0)
    ensures ToNum(h, Num(NaN)) == Finite(0.0)
    ensures ToNum(h, Num(Finite(x))) == Finite(x)
    ensures ToNum(h, Num(PosInf)) == PosInf && ToNum(h, Num(NegInf)) == NegInf
  {
    assert AllSpace("");
  }

  /** The numeric inputs, named after the tracking device's measurements. */
  datatype Measurement =
    | ReleaseSpeed | HorzBreak | InducedVertBreak | ReleaseExtension | SpinRate
    | SpinAxis | RelSide | RelHeight | FbVelo | FbIvb | FbHorzBreak

  /** The key a measurement is preferred under: the feature's snake_case name. */
  function SnakeKey(m: Measurement): string {
    match m
    case ReleaseSpeed => "release_speed"
    case HorzBreak => "pfx_x"
    case InducedVertBreak => "pfx_z"
    case ReleaseExtension => "release_extension"
    case SpinRate => "release_spin_rate"
    case SpinAxis => "spin_axis"
    case RelSide => "release_pos_x"
    case RelHeight => "release_pos_z"
    case FbVelo => "fb_velo"
    case FbIvb => "fb_ivb"
    case FbHorzBreak => "fb_hmov"
  }

  /** The alternative camelCase key, consulted when the snake_case one is null or absent. */
  function CamelKey(m: Measurement): string {
    match m
    case ReleaseSpeed => "releaseSpeed"
    case HorzBreak => "pfxX"
    case InducedVertBreak => "pfxZ"
    case ReleaseExtension => "releaseExtension"
    case SpinRate => "releaseSpinRate"
    case SpinAxis => "spinAxis"
    case RelSide => "releasePosX"
    case RelHeight => "releasePosZ"
    case FbVelo => "fbVelo"
    case FbIvb => "fbIvb"
    case FbHorzBreak => "fbHmov"
  }

  /** `body[snake] ?? body[camel]`, the value `toNum` receives for a measurement. */
  function MeasurementValue(body: Value, m: Measurement): Value {
    Coalesce(Field(body, SnakeKey(m)), Field(body, CamelKey(m)))
  }

  /** `toNum(body[snake] ?? body[camel])`: the snake_case key wins whenever it is not
      null or undefined, even when its value is not numeric and so becomes 0. */
  function ReadMeasurement(h: Host, body: Value, m: Measurement): (r: Number)
    requires Converts(MeasurementValue(body, m))
    ensures !r.NaN?
    ensures !IsNullish(Field(body, SnakeKey(m))) ==> r == ToNum(h, Field(body, SnakeKey(m)))
    ensures IsNullish(Field(body, SnakeKey(m))) ==> r == ToNum(h, Field(body, CamelKey(m)))
  {
    ToNum(h, MeasurementValue(body, m))
  }

  /** `body.pitchType ?? body.pitch_type ?? "FF"`. */
  function PitchTypeValue(body: Value): Value {
    Coalesce(Coalesce(Field(body, "pitchType"), Field(body, "pitch_type")), Str("FF"))
  }

  /** `String(v).toUpperCase()` of `body.pitchType ?? body.pitch_type ?? "FF"`: the
      camelCase key wins here, and no check against the known pitch codes is made. */
  function ReadPitchType(h: Host, body: Value): (r: string)
    requires Converts(PitchTypeValue(body))
    ensures forall i :: 0 <= i < |r| ==> !IsLowerAscii(r[i])
    ensures !IsNullish(Field(body, "pitchType")) ==> r == Upper(ToString(h, Field(body, "pitchType")))
    ensures IsNullish(Field(body, "pitchType")) && !IsNullish(Field(body, "pitch_type"))
            ==> r == Upper(ToString(h, Field(body, "pitch_type")))
    ensures IsNullish(Field(body, "pitchType")) && IsNullish(Field(body, "pitch_type")) ==> r == "FF"
  {
    Upper(ToString(h, PitchTypeValue(body)))
  }

  /** Collapses a handedness to "L" or "R": "L" exactly when its text starts with 'L' or 'l'
      (no trimming, so " L" is right-handed). */
  function Throws(text: string): (r: string)
    ensures r == "L" || r == "R"
    ensures r == "L" <==> 0 < |text| && (text[0] == 'L' || text[0] == 'l')
  {
    UpperStartsWithL(text);
    if StartsWith(Upper(text), "L") then "L" else "R"
  }

  /** `body.handedness ?? body.p_throws ?? "R"`. */
  function ThrowsValue(body: Value): Value {
    Coalesce(Coalesce(Field(body, "handedness"), Field(body, "p_throws")), Str("R"))
  }

  /** `body.handedness ?? body.p_throws ?? "R"`, collapsed by `Throws`; "handedness" wins. */
  function ReadThrows(h: Host, body: Value): (r: string)
    requires Converts(ThrowsValue(body))
    ensures r == "L" || r == "R"
    ensures !IsNullish(Field(body, "handedness")) ==> r == Throws(ToString(h, Field(body, "handedness")))
    ensures IsNullish(Field(body, "handedness")) && !IsNullish(Field(body, "p_throws"))
            ==> r == Throws(ToString(h, Field(body, "p_throws")))
    ensures IsNullish(Field(body, "handedness")) && IsNullish(Field(body, "p_throws")) ==> r == "R"
  {
    Throws(ToString(h, ThrowsValue(body)))
  }

  /** Whether every value the handler coerces while building the payload converts;
      otherwise the first `toNum` or `String` to meet one that does not throws. */
  predicate Readable(body: Value) {
    && Converts(PitchTypeValue(body)) && Converts(ThrowsValue(body))
    && Converts(MeasurementValue(body, ReleaseSpeed)) && Converts(MeasurementValue(body, HorzBreak))
    && Converts(MeasurementValue(body, InducedVertBreak)) && Converts(MeasurementValue(body, ReleaseExtension))
    && Converts(MeasurementValue(body, SpinRate)) && Converts(MeasurementValue(body, SpinAxis))
    && Converts(MeasurementValue(body, RelSide)) && Converts(MeasurementValue(body, RelHeight))
    && Converts(MeasurementValue(body, FbVelo)) && Converts(MeasurementValue(body, FbIvb))
    && Converts(MeasurementValue(body, FbHorzBreak))
  }

  /** `Readable` is exactly: both codes and every measurement convert. */
  lemma ReadableMeans(body: Value)
    ensures Readable(body) <==>
              && Converts(PitchTypeValue(body)) && Converts(ThrowsValue(body))
              && (forall m :: Converts(MeasurementValue(body, m)))
  {
    if Readable(body) {
      forall m ensures Converts(MeasurementValue(body, m)) {
        ReadableMeasurement(body, m);
      }
    }
  }

  lemma ReadableMeasurement(body: Value, m: Measurement)
    requires Readable(body)
    ensures Converts(MeasurementValue(body, m))
  {
    match m
    case ReleaseSpeed =>
    case HorzBreak =>
    case InducedVertBreak =>
    case ReleaseExtension =>
    case SpinRate =>
    case SpinAxis =>
    case RelSide =>
    case RelHeight =>
    case FbVelo =>
    case FbIvb =>
    case FbHorzBreak =>
  }

  /** A body none of whose properties is an object that fails to convert can be read. */
  lemma ReadableWhenFieldsConvert(body: Value)
    requires forall k :: Converts(Field(body, k))
    ensures Readable(body)
  {
  }

  /** A number given as the handedness never reads as left-handed. */
  lemma NumericHandednessIsRight(h: Host, n: Number)
    requires Lawful(h)
    ensures Throws(ToString(h, Num(n))) == "R"
  {
  }

  /** The measurements of one pitch in the tracking device's units: movement in
      inches, release position in feet, in the device's sign convention. */
  datatype Readings = Readings(
    pitchType: string, throws: string,
    releaseSpeed: Number, horzBreak: Number, inducedVertBreak: Number,
    releaseExtension: Number, spinRate: Number, spinAxis: Number,
    relSide: Number, relHeight: Number,
    fbVelo: Number, fbIvb: Number, fbHorzBreak: Number)

  /** The feature vector the prediction service takes: movement in feet, the
      catcher's-view sign convention for horizontal quantities. */
  datatype Features = Features(
    pitchType: string, releaseSpeed: Number, pfxX: Number, pfxZ: Number,
    releaseExtension: Number, releaseSpinRate: Number, spinAxis: Number,
    releasePosX: Number, releasePosZ: Number, pThrows: string,
    fbVelo: Number, fbIvb: Number, fbHmov: Number)

  /** Everything the handler reads from the request body. */
  function Read(h: Host, body: Value): (r: Readings)
    requires Readable(body)
    ensures r.pitchType == ReadPitchType(h, body) && r.throws == ReadThrows(h, body)
    ensures r.throws == "L" || r.throws == "R"
    ensures r.releaseSpeed == ReadMeasurement(h, body, ReleaseSpeed)
    ensures r.horzBreak == ReadMeasurement(h, body, HorzBreak)
    ensures r.inducedVertBreak == ReadMeasurement(h, body, InducedVertBreak)
    ensures r.releaseExtension == ReadMeasurement(h, body, ReleaseExtension)
    ensures r.spinRate == ReadMeasurement(h, body, SpinRate)
    ensures r.spinAxis == ReadMeasurement(h, body, SpinAxis)
    ensures r.relSide == ReadMeasurement(h, body, RelSide)
    ensures r.relHeight == ReadMeasurement(h, body, RelHeight)
    ensures r.fbVelo == ReadMeasurement(h, body, FbVelo)
    ensures r.fbIvb == ReadMeasurement(h, body, FbIvb)
    ensures r.fbHorzBreak == ReadMeasurement(h, body, FbHorzBreak)
    ensures !r.releaseSpeed.NaN? && !r.horzBreak.NaN? && !r.inducedVertBreak.NaN?
    ensures !r.releaseExtension.NaN? && !r.spinRate.NaN? && !r.spinAxis.NaN?
    ensures !r.relSide.NaN? && !r.relHeight.NaN?
    ensures !r.fbVelo.NaN? && !r.fbIvb.NaN? && !r.fbHorzBreak.NaN?
  {
    Readings(
      ReadPitchType(h, body), ReadThrows(h, body),
      ReadMeasurement(h, body, ReleaseSpeed), ReadMeasurement(h, body, HorzBreak),
      ReadMeasurement(h, body, InducedVertBreak), ReadMeasurement(h, body, ReleaseExtension),
      ReadMeasurement(h, body, SpinRate), ReadMeasurement(h, body, SpinAxis),
      ReadMeasurement(h, body, RelSide), ReadMeasurement(h, body, RelHeight),
      ReadMeasurement(h, body, FbVelo), ReadMeasurement(h, body, FbIvb),
      ReadMeasurement(h, body, FbHorzBreak))
  }

  /** The unit conversion: horizontal breaks flip sign and go from inches to feet,
      vertical breaks go from inches to feet, the release side flips sign, and
      everything else passes through. */
  function Convert(r: Readings): (f: Features)
    ensures r.horzBreak.Finite? ==> f.pfxX == Finite(-r.horzBreak.value / 12.0)
    ensures r.inducedVertBreak.Finite? ==> f.pfxZ == Finite(r.inducedVertBreak.value / 12.0)
    ensures r.fbIvb.Finite? ==> f.fbIvb == Finite(r.fbIvb.value / 12.0)
    ensures r.fbHorzBreak.Finite? ==> f.fbHmov == Finite(-r.fbHorzBreak.value / 12.0)
    ensures r.relSide.Finite? ==> f.releasePosX == Finite(-r.relSide.value)
    ensures r.horzBreak == PosInf ==> f.pfxX == NegInf
    ensures r.relSide == NegInf ==> f.releasePosX == PosInf
    ensures f.releasePosZ == r.relHeight && f.releaseSpeed == r.releaseSpeed
    ensures f.releaseExtension == r.releaseExtension && f.releaseSpinRate == r.spinRate
    ensures f.spinAxis == r.spinAxis && f.fbVelo == r.fbVelo
    ensures f.pitchType == r.pitchType && f.pThrows == r.throws
  {
    Features(
      pitchType := r.pitchType,
      releaseSpeed := r.releaseSpeed,
      pfxX := Divide(Negate(r.horzBreak), 12.0),
      pfxZ := Divide(r.inducedVertBreak, 12.0),
      releaseExtension := r.releaseExtension,
      releaseSpinRate := r.spinRate,
      spinAxis := r.spinAxis,
      releasePosX := Negate(r.relSide),
      releasePosZ := r.relHeight,
      pThrows := r.throws,
      fbVelo := r.fbVelo,
      fbIvb := Divide(r.fbIvb, 12.0),
      fbHmov := Divide(Negate(r.fbHorzBreak), 12.0))
  }

  /** The conversion run backwards: feet back to inches, signs flipped back. */
  function Unconvert(f: Features): Readings {
    Readings(
      pitchType := f.pitchType,
      throws := f.pThrows,
      releaseSpeed := f.releaseSpeed,
      horzBreak := Negate(Multiply(f.pfxX, 12.0)),
      inducedVertBreak := Multiply(f.pfxZ, 12.0),
      releaseExtension := f.releaseExtension,
      spinRate := f.releaseSpinRate,
      spinAxis := f.spinAxis,
      relSide := Negate(f.releasePosX),
      relHeight := f.releasePosZ,
      fbVelo := f.fbVelo,
      fbIvb := Multiply(f.fbIvb, 12.0),
      fbHorzBreak := Negate(Multiply(f.fbHmov, 12.0)))
  }

  /** The conversion loses nothing: the device readings are recovered from the features ... */
  lemma ConvertRoundTrip(r: Readings)
    ensures Unconvert(Convert(r)) == r
  {
    MultiplyUndoesDivide(Negate(r.horzBreak), 12.0);
    MultiplyUndoesDivide(r.inducedVertBreak, 12.0);
    MultiplyUndoesDivide(r.fbIvb, 12.0);
    MultiplyUndoesDivide(Negate(r.fbHorzBreak), 12.0);
  }

  /** ... and every feature vector comes from exactly one set of readings. */
  lemma UnconvertRoundTrip(f: Features)
    ensures Convert(Unconvert(f)) == f
  {
    MultiplyUndoesDivide(f.pfxX, 12.0);
    MultiplyUndoesDivide(f.pfxZ, 12.0);
    MultiplyUndoesDivide(f.fbIvb, 12.0);
    MultiplyUndoesDivide(f.fbHmov, 12.0);
  }

  /** The payload posted to the prediction service for a request body: each feature is
      the coerced reading of its key pair, converted to the service's units. */
  function Normalise(h: Host, body: Value): (f: Features)
    requires Readable(body)
    ensures f.pitchType == ReadPitchType(h, body) && f.pThrows == ReadThrows(h, body)
    ensures f.releaseSpeed == ReadMeasurement(h, body, ReleaseSpeed)
    ensures f.pfxX == Divide(Negate(ReadMeasurement(h, body, HorzBreak)), 12.0)
    ensures f.pfxZ == Divide(ReadMeasurement(h, body, InducedVertBreak), 12.0)
    ensures f.releaseExtension == ReadMeasurement(h, body, ReleaseExtension)
    ensures f.releaseSpinRate == ReadMeasurement(h, body, SpinRate)
    ensures f.spinAxis == ReadMeasurement(h, body, SpinAxis)
    ensures f.releasePosX == Negate(ReadMeasurement(h, body, RelSide))
    ensures f.releasePosZ == ReadMeasurement(h, body, RelHeight)
    ensures f.fbVelo == ReadMeasurement(h, body, FbVelo)
    ensures f.fbIvb == Divide(ReadMeasurement(h, body, FbIvb), 12.0)
    ensures f.fbHmov == Divide(Negate(ReadMeasurement(h, body, FbHorzBreak)), 12.0)
  {
    Convert(Read(h, body))
  }

  /** Nothing of the body is lost on the way to the service: the readings come back
      from the payload exactly. */
  lemma NormaliseKeepsReadings(h: Host, body: Value)
    requires Readable(body)
    ensures Unconvert(Normalise(h, body)) == Read(h, body)
  {
    ConvertRoundTrip(Read(h, body));
  }

  /** The keys the handler consults, and only those, decide the payload: two bodies that
      agree on the two keys of every measurement and on the four code keys are sent alike. */
  lemma NormaliseReadsOnlyKnownKeys(h: Host, b1: Value, b2: Value)
    requires forall m :: Field(b1, SnakeKey(m)) == Field(b2, SnakeKey(m))
    requires forall m :: Field(b1, CamelKey(m)) == Field(b2, CamelKey(m))
    requires Field(b1, "pitchType") == Field(b2, "pitchType") && Field(b1, "pitch_type") == Field(b2, "pitch_type")
    requires Field(b1, "handedness") == Field(b2, "handedness") && Field(b1, "p_throws") == Field(b2, "p_throws")
    ensures Readable(b1) <==> Readable(b2)
    ensures Readable(b1) ==> Normalise(h, b1) == Normalise(h, b2)
  {
    forall m ensures MeasurementValue(b1, m) == MeasurementValue(b2, m) {
      assert Field(b1, SnakeKey(m)) == Field(b2, SnakeKey(m));
      assert Field(b1, CamelKey(m)) == Field(b2, CamelKey(m));
    }
    ReadableMeans(b1);
    ReadableMeans(b2);
    if Readable(b1) {
      ReadSeesOnlyValues(h, b1, b2);
    }
  }

  /** Two readable bodies that give `toNum` and `String` the same values read alike. */
  lemma ReadSeesOnlyValues(h: Host, b1: Value, b2: Value)
    requires Readable(b1) && Readable(b2)
    requires forall m :: MeasurementValue(b1, m) == MeasurementValue(b2, m)
    requires PitchTypeValue(b1) == PitchTypeValue(b2) && ThrowsValue(b1) == ThrowsValue(b2)
    ensures Read(h, b1) == Read(h, b2)
  {
    forall m | Converts(MeasurementValue(b1, m))
      ensures ReadMeasurement(h, b1, m) == ReadMeasurement(h, b2, m)
    {
    }
  }

  /** 12 in of horizontal break is -1 ft, 24 in of vertical break is 2 ft, and a
      release side of 1.5 ft becomes -1.5 ft. */
  /** The body of the conversion examples: three movement readings, nothing else. */
  function ConversionBody(): Value {
    Record(map["pfx_x" := Num(Finite(12.0)), "pfx_z" := Num(Finite(24.0)), "release_pos_x" := Num(Finite(1.5))])
  }

  lemma ConversionBodyReadable()
    ensures Readable(ConversionBody())
  {
    ReadableWhenFieldsConvert(ConversionBody());
  }

  lemma ConversionBodyReadings(h: Host)
    ensures ReadMeasurement(h, ConversionBody(), HorzBreak) == Finite(12.0)
    ensures ReadMeasurement(h, ConversionBody(), InducedVertBreak) == Finite(24.0)
    ensures ReadMeasurement(h, ConversionBody(), RelSide) == Finite(1.5)
  {
  }

  lemma ConversionExamples(h: Host)
    ensures Readable(ConversionBody())
    ensures var f := Normalise(h, ConversionBody());
            f.pfxX == Finite(-1.0) && f.pfxZ == Finite(2.0) && f.releasePosX == Finite(-1.5)
  {
    ConversionBodyReadable();
    ConversionBodyReadings(h);
  }

  /** What the example body holds under each measurement's snake_case key: a number for
      the seven the form filled in, nothing for the other four. */
  function ExampleField(m: Measurement): Value {
    match m
    case ReleaseSpeed => Num(Finite(95.0))
    case HorzBreak => Num(Finite(8.0))
    case InducedVertBreak => Num(Finite(18.0))
    case RelSide => Num(Finite(1.5))
    case RelHeight => Num(Finite(5.5))
    case FbIvb => Num(Finite(18.0))
    case FbHorzBreak => Num(Finite(-7.0))
    case _ => Undefined
  }

  /** A fastball from a right-hander, as a form would describe it: lower-case codes, the
      seven filled-in measurements under their snake_case keys, and the other four absent
      under both keys. */
  ghost predicate IsExampleBody(body: Value) {
    && Field(body, "pitchType") == Str("ff") && Field(body, "handedness") == Str("r")
    && (forall m :: Field(body, SnakeKey(m)) == ExampleField(m))
    && (forall m :: ExampleField(m).Undefined? ==> Field(body, CamelKey(m)) == Undefined)
    && Readable(body)
  }

  /** Such a body exists: the example written out as a JSON object. */
  lemma ExampleBodyExists()
    ensures IsExampleBody(Record(map[
      "release_speed" := Num(Finite(95.0)), "pfx_x" := Num(Finite(8.0)), "pfx_z" := Num(Finite(18.0)),
      "release_pos_x" := Num(Finite(1.5)), "release_pos_z" := Num(Finite(5.5)),
      "fb_ivb" := Num(Finite(18.0)), "fb_hmov" := Num(Finite(-7.0)),
      "pitchType" := Str("ff"), "handedness" := Str("r")]))
  {
    var body := Record(map[
      "release_speed" := Num(Finite(95.0)), "pfx_x" := Num(Finite(8.0)), "pfx_z" := Num(Finite(18.0)),
      "release_pos_x" := Num(Finite(1.5)), "release_pos_z" := Num(Finite(5.5)),
      "fb_ivb" := Num(Finite(18.0)), "fb_hmov" := Num(Finite(-7.0)),
      "pitchType" := Str("ff"), "handedness" := Str("r")]);
    forall m | true
      ensures Field(body, SnakeKey(m)) == ExampleField(m)
      ensures ExampleField(m).Undefined? ==> Field(body, CamelKey(m)) == Undefined
    {
      match m
      case ReleaseSpeed =>
      case HorzBreak =>
      case InducedVertBreak =>
      case ReleaseExtension =>
      case SpinRate =>
      case SpinAxis =>
      case RelSide =>
      case RelHeight =>
      case FbVelo =>
      case FbIvb =>
      case FbHorzBreak =>
    }
    ReadableWhenFieldsConvert(body);
  }

  /** The four break readings of the example, in inches. */
  lemma ExampleMovement(h: Host, body: Value)
    requires IsExampleBody(body)
    ensures ReadMeasurement(h, body, HorzBreak) == Finite(8.0)
    ensures ReadMeasurement(h, body, InducedVertBreak) == Finite(18.0)
    ensures ReadMeasurement(h, body, FbIvb) == Finite(18.0)
    ensures ReadMeasurement(h, body, FbHorzBreak) == Finite(-7.0)
  {
    assert Field(body, SnakeKey(HorzBreak)) == ExampleField(HorzBreak);
    assert Field(body, SnakeKey(InducedVertBreak)) == ExampleField(InducedVertBreak);
    assert Field(body, SnakeKey(FbIvb)) == ExampleField(FbIvb);
    assert Field(body, SnakeKey(FbHorzBreak)) == ExampleField(FbHorzBreak);
  }

  /** The other seven readings of the example: the four it leaves out read as 0. */
  lemma ExampleOthers(h: Host, body: Value)
    requires IsExampleBody(body)
    ensures ReadMeasurement(h, body, ReleaseSpeed) == Finite(95.0)
    ensures ReadMeasurement(h, body, RelSide) == Finite(1.5)
    ensures ReadMeasurement(h, body, RelHeight) == Finite(5.5)
    ensures ReadMeasurement(h, body, ReleaseExtension) == Finite(0.0)
    ensures ReadMeasurement(h, body, SpinRate) == Finite(0.0)
    ensures ReadMeasurement(h, body, SpinAxis) == Finite(0.0)
    ensures ReadMeasurement(h, body, FbVelo) == Finite(0.0)
  {
    assert Field(body, SnakeKey(ReleaseSpeed)) == ExampleField(ReleaseSpeed);
    assert Field(body, SnakeKey(RelSide)) == ExampleField(RelSide);
    assert Field(body, SnakeKey(RelHeight)) == ExampleField(RelHeight);
    assert Field(body, SnakeKey(ReleaseExtension)) == ExampleField(ReleaseExtension);
    assert Field(body, SnakeKey(SpinRate)) == ExampleField(SpinRate);
    assert Field(body, SnakeKey(SpinAxis)) == ExampleField(SpinAxis);
    assert Field(body, SnakeKey(FbVelo)) == ExampleField(FbVelo);
  }

  lemma ExampleCodes(h: Host, body: Value)
    requires IsExampleBody(body)
    ensures ReadPitchType(h, body) == "FF" && ReadThrows(h, body) == "R"
  {
    assert Upper("ff") == "FF";
  }

  /** The worked example read in device units: missing measurements are 0 and the codes
      are upper-cased. */
  lemma ExampleReading(h: Host, body: Value)
    requires IsExampleBody(body)
    ensures Read(h, body) == Readings(
      pitchType := "FF", throws := "R", releaseSpeed := Finite(95.0), horzBreak := Finite(8.0),
      inducedVertBreak := Finite(18.0), releaseExtension := Finite(0.0), spinRate := Finite(0.0),
      spinAxis := Finite(0.0), relSide := Finite(1.5), relHeight := Finite(5.5),
      fbVelo := Finite(0.0), fbIvb := Finite(18.0), fbHorzBreak := Finite(-7.0))
  {
    ExampleMovement(h, body);
    ExampleOthers(h, body);
    ExampleCodes(h, body);
  }

  /** The worked example converted: 8 in of break is -2/3 ft and -7 in of fastball
      break is 7/12 ft. */
  lemma ExampleNormalisation(h: Host, body: Value)
    requires IsExampleBody(body)
    ensures Normalise(h, body) == Features(
      pitchType := "FF", releaseSpeed := Finite(95.0), pfxX := Finite(-8.0 / 12.0), pfxZ := Finite(1.5),
      releaseExtension := Finite(0.0), releaseSpinRate := Finite(0.0), spinAxis := Finite(0.0),
      releasePosX := Finite(-1.5), releasePosZ := Finite(5.5), pThrows := "R",
      fbVelo := Finite(0.0), fbIvb := Finite(1.5), fbHmov := Finite(7.0 / 12.0))
  {
    ExampleReading(h, body);
    ExampleConverted();
    assert Normalise(h, body) == Convert(Read(h, body));
  }

  /** The unit conversion of the example's readings. */
  lemma ExampleConverted()
    ensures Convert(Readings(
      pitchType := "FF", throws := "R", releaseSpeed := Finite(95.0), horzBreak := Finite(8.0),
      inducedVertBreak := Finite(18.0), releaseExtension := Finite(0.0), spinRate := Finite(0.0),
      spinAxis := Finite(0.0), relSide := Finite(1.5), relHeight := Finite(5.5),
      fbVelo := Finite(0.0), fbIvb := Finite(18.0), fbHorzBreak := Finite(-7.0)))
      == Features(
      pitchType := "FF", releaseSpeed := Finite(95.0), pfxX := Finite(-8.0 / 12.0), pfxZ := Finite(1.5),
      releaseExtension := Finite(0.0), releaseSpinRate := Finite(0.0), spinAxis := Finite(0.0),
      releasePosX := Finite(-1.5), releasePosZ := Finite(5.5), pThrows := "R",
      fbVelo := Finite(0.0), fbIvb := Finite(1.5), fbHmov := Finite(7.0 / 12.0))
  {
  }

  /** A non-numeric snake_case value still beats a numeric camelCase one, and reads as 0. */
  lemma SnakeCaseWinsEvenWhenNotNumeric(h: Host)
    requires Lawful(h)
    ensures Readable(Record(map["pfx_x" := Str("abc"), "pfxX" := Num(Finite(12.0))]))
    ensures Normalise(h, Record(map["pfx_x" := Str("abc"), "pfxX" := Num(Finite(12.0))])).pfxX == Finite(0.0)
  {
    var body := Record(map["pfx_x" := Str("abc"), "pfxX" := Num(Finite(12.0))]);
    ReadableWhenFieldsConvert(body);
    assert Field(body, "pfx_x") == Str("abc");
    assert StartsWithWord("abc");
    assert ReadMeasurement(h, body, HorzBreak) == Finite(0.0);
  }

  /** What the prediction service answered. `json` is the outcome of parsing `text`. */
  datatype Fetched =
    | NetworkError(message: string)
    | Response(status: nat, text: string, json: Result<Value>)
  {
    /** `response.ok`. */
    predicate Ok() {
      Response? && 200 <= status <= 299
    }
  }

  /** The error message chosen for a non-ok answer: its JSON's `detail`, else its `error`,
      else the generic text; a body that is not JSON (or is JSON null) contributes its raw
      text when that is not empty. A message that is not a string is JSON-encoded. */
  function UpstreamMessage(h: Host, status: nat, text: string, json: Result<Value>): (msg: string)
    ensures json.Ok? && !IsNullish(json.value) && Field(json.value, "detail").Str?
            ==> msg == Field(json.value, "detail").s
    ensures (json.Ok? && !IsNullish(json.value) && IsNullish(Field(json.value, "detail"))
             && Field(json.value, "error").Str?) ==> msg == Field(json.value, "error").s
    ensures (json.Ok? && !IsNullish(json.value) && IsNullish(Field(json.value, "detail"))
             && IsNullish(Field(json.value, "error"))) ==> msg == "Stuff+ API error: " + NatToString(status)
    ensures (json.Ok? && !IsNullish(json.value) && !IsNullish(Field(json.value, "detail"))
             && !Field(json.value, "detail").Str?) ==> msg == h.jsonStringify(Field(json.value, "detail"))
    ensures (json.Ok? && !IsNullish(json.value) && IsNullish(Field(json.value, "detail"))
             && !IsNullish(Field(json.value, "error")) && !Field(json.value, "error").Str?)
            ==> msg == h.jsonStringify(Field(json.value, "error"))
    ensures (json.Fail? || IsNullish(json.value)) && text != "" ==> msg == text
    ensures (json.Fail? || IsNullish(json.value)) && text == "" ==> msg == "Stuff+ API error: " + NatToString(status)
  {
    var fallback := ApiErrorPrefix + NatToString(status);
    var chosen :=
      if json.Fail? || IsNullish(json.value) then Str(if text != "" then text else fallback)
      else Coalesce(Coalesce(Field(json.value, "detail"), Field(json.value, "error")), Str(fallback));
    if chosen.Str? then chosen.s else h.jsonStringify(chosen)
  }

  /** The prefix of the generic message of a non-ok answer. */
  const ApiErrorPrefix := "Stuff+ API error: "

  /** Whenever the service gives no usable message, the status can be read back from the
      generic one: its digits follow the prefix and spell exactly the status. */
  lemma FallbackNamesStatus(h: Host, status: nat, text: string, json: Result<Value>)
    requires || ((json.Fail? || IsNullish(json.value)) && text == "")
             || (json.Ok? && !IsNullish(json.value) && IsNullish(Field(json.value, "detail"))
                 && IsNullish(Field(json.value, "error")))
    ensures var msg := UpstreamMessage(h, status, text, json);
            && StartsWith(msg, ApiErrorPrefix)
            && AllDigits(msg[|ApiErrorPrefix|..])
            && DigitsValue(msg[|ApiErrorPrefix|..]) == status
  {
    var msg := UpstreamMessage(h, status, text, json);
    assert msg == ApiErrorPrefix + NatToString(status);
    assert msg[|ApiErrorPrefix|..] == NatToString(status);
    NatToStringRoundTrip(status);
  }

  /** A JSON refusal decides the message by itself: the raw text is then irrelevant, and a
      present `detail` makes the `error` property irrelevant too. */
  lemma JsonRefusalDecides(h: Host, status: nat, text1: string, text2: string,
                           fields: map<string, Value>, objText: Option<string>, error: Value)
    ensures UpstreamMessage(h, status, text1, Ok(Object(fields, objText)))
            == UpstreamMessage(h, status, text2, Ok(Object(fields, objText)))
    ensures "detail" in fields && !IsNullish(fields["detail"]) ==>
              UpstreamMessage(h, status, text1, Ok(Object(fields["error" := error], objText)))
              == UpstreamMessage(h, status, text1, Ok(Object(fields, objText)))
  {
    if "detail" in fields && !IsNullish(fields["detail"]) {
      assert Field(Object(fields["error" := error], objText), "detail") == fields["detail"];
    }
  }

  /** The handler's answer to its caller. */
  datatype Reply =
    | Scored(stuffPlus: Number, percentile: real, stuffPlusRaw: Number)
    | Failed(status: nat, error: string)

  /** `JSON.stringify` of a number: the non-finite values are written as null. */
  function Wire(n: Number): (v: Value)
    ensures n.Finite? ==> v == Num(n)
    ensures !n.Finite? ==> v == Null
  {
    if n.Finite? then Num(n) else Null
  }

  /** The HTTP status of a reply. */
  function ReplyStatus(r: Reply): nat {
    match r
    case Scored(_, _, _) => 200
    case Failed(status, _) => status
  }

  /** The JSON body of a reply, as the caller parses it: a score carries the two numbers in
      their JSON form and the percentile, a failure only its message. */
  function ReplyBody(r: Reply): (b: Value)
    ensures b.Object?
    ensures r.Scored? ==> && b.fields.Keys == {"stuffPlus", "percentile", "stuff_plus_raw"}
                          && Field(b, "stuffPlus") == Wire(r.stuffPlus)
                          && Field(b, "percentile") == Num(Finite(r.percentile))
                          && Field(b, "stuff_plus_raw") == Wire(r.stuffPlusRaw)
    ensures r.Failed? ==> b.fields.Keys == {"error"} && Field(b, "error") == Str(r.error)
  {
    match r
    case Scored(stuffPlus, percentile, raw) =>
      Record(map["stuffPlus" := Wire(stuffPlus), "percentile" := Num(Finite(percentile)),
                 "stuff_plus_raw" := Wire(raw)])
    case Failed(_, error) => Record(map["error" := Str(error)])
  }

  /** `data.stuff_plus ?? data.stuffPlus` and `data.stuff_plus_raw ?? data.stuffPlusRaw`,
      the two values `toNum` receives from the service's answer. */
  function ScoreValue(data: Value): Value {
    Coalesce(Field(data, "stuff_plus"), Field(data, "stuffPlus"))
  }

  function RawValue(data: Value): Value {
    Coalesce(Field(data, "stuff_plus_raw"), Field(data, "stuffPlusRaw"))
  }

  /** The success half: the score and its raw companion read from the service's JSON. */
  function Score(h: Host, data: Value): (r: Reply)
    requires !IsNullish(data) && Converts(ScoreValue(data)) && Converts(RawValue(data))
    ensures r.Scored? && !r.stuffPlus.NaN? && !r.stuffPlusRaw.NaN?
    ensures r.percentile == Percentile(h, r.stuffPlus)
    ensures !IsNullish(Field(data, "stuff_plus")) ==> r.stuffPlus == ToNum(h, Field(data, "stuff_plus"))
    ensures IsNullish(Field(data, "stuff_plus")) ==> r.stuffPlus == ToNum(h, Field(data, "stuffPlus"))
    ensures !IsNullish(Field(data, "stuff_plus_raw")) ==> r.stuffPlusRaw == ToNum(h, Field(data, "stuff_plus_raw"))
    ensures IsNullish(Field(data, "stuff_plus_raw")) ==> r.stuffPlusRaw == ToNum(h, Field(data, "stuffPlusRaw"))
  {
    var stuffPlus := ToNum(h, ScoreValue(data));
    var raw := ToNum(h, RawValue(data));
    Scored(stuffPlus, Percentile(h, stuffPlus), raw)
  }

  /** `POST /api/stuff-plus`. `request` is the outcome of `request.json()`, `env` the
      configured service URL, and `predict` the service: given the URL and the
      feature vector, what it answers. Every failure is a 500 carrying a message; a value
      that cannot be converted to a primitive fails with the host's TypeError message. */
  function Post(h: Host, env: Option<string>, request: Result<Value>, predict: (string, Features) -> Fetched): (r: Reply)
    ensures r.Failed? ==> r.status == 500
    ensures request.Fail? ==> r == Failed(500, request.message)
    ensures request.Ok? && IsNullish(request.value) ==> r == Failed(500, h.typeError("pfx_x"))
    ensures request.Ok? && !IsNullish(request.value) && !Readable(request.value) ==> r == Failed(500, h.conversionError)
    ensures request.Ok? && !IsNullish(request.value) && Readable(request.value) ==>
              var fetched := predict(PredictUrl(env), Normalise(h, request.value));
              && (fetched.NetworkError? ==> r == Failed(500, fetched.message))
              && (fetched.Response? && !fetched.Ok() ==>
                    r == Failed(500, UpstreamMessage(h, fetched.status, fetched.text, fetched.json)))
              && (fetched.Ok() && fetched.json.Fail? ==> r == Failed(500, fetched.json.message))
              && (fetched.Ok() && fetched.json.Ok? && IsNullish(fetched.json.value) ==>
                    r == Failed(500, h.typeError("stuff_plus")))
              && (fetched.Ok() && fetched.json.Ok? && !IsNullish(fetched.json.value)
                  && !(Converts(ScoreValue(fetched.json.value)) && Converts(RawValue(fetched.json.value))) ==>
                    r == Failed(500, h.conversionError))
              && (fetched.Ok() && fetched.json.Ok? && !IsNullish(fetched.json.value)
                  && Converts(ScoreValue(fetched.json.value)) && Converts(RawValue(fetched.json.value)) ==>
                    r == Score(h, fetched.json.value))
  {
    match request
    case Fail(message) => Failed(500, message)
    case Ok(body) =>
      if IsNullish(body) then Failed(500, h.typeError("pfx_x"))
      else if !Readable(body) then Failed(500, h.conversionError)
      else
        match predict(PredictUrl(env), Normalise(h, body))
        case NetworkError(message) => Failed(500, message)
        case Response(status, text, json) =>
          if !(200 <= status <= 299) then Failed(500, UpstreamMessage(h, status, text, json))
          else
            match json
            case Fail(message) => Failed(500, message)
            case Ok(data) =>
              if IsNullish(data) then Failed(500, h.typeError("stuff_plus"))
              else if !(Converts(ScoreValue(data)) && Converts(RawValue(data))) then Failed(500, h.conversionError)
              else Score(h, data)
  }

  /** A reply is either a score with a percentile in [0, 100] or a 500 failure; a
      non-ok answer from the service is never turned into a score. */
  lemma PostOutcomes(h: Host, env: Option<string>, request: Result<Value>, predict: (string, Features) -> Fetched)
    requires Lawful(h)
    ensures var r := Post(h, env, request, predict);
            && (r.Scored? ==> 0.0 <= r.percentile <= 100.0)
            && (r.Scored? ==> request.Ok? && Readable(request.value)
                              && predict(PredictUrl(env), Normalise(h, request.value)).Ok())
  {
    var r := Post(h, env, request, predict);
    if r.Scored? {
      PercentileBounds(h, r.stuffPlus);
    }
  }

  /** A measurement sent as an object with its own `toString` property cannot be coerced:
      the handler answers with the conversion TypeError and never asks the service. */
  lemma UnconvertibleMeasurementFails(h: Host, env: Option<string>, predict: (string, Features) -> Fetched)
    ensures Post(h, env, Ok(Parsed(map["pfx_x" := Parsed(map["toString" := Num(Finite(1.0))])])), predict)
            == Failed(500, h.conversionError)
  {
    var body := Parsed(map["pfx_x" := Parsed(map["toString" := Num(Finite(1.0))])]);
    assert Field(body, "pfx_x") == Parsed(map["toString" := Num(Finite(1.0))]);
    assert !Converts(MeasurementValue(body, HorzBreak));
  }

  /** A service that refuses with `{"detail": "bad request"}` surfaces exactly "bad request". */
  lemma DetailIsSurfaced(h: Host, status: nat, text: string)
    ensures UpstreamMessage(h, status, text, Ok(Record(map["detail" := Str("bad request")]))) == "bad request"
  {
  }

  /** A refusal with an empty, non-JSON body reports the status code. */
  lemma EmptyRefusalReportsStatus(h: Host)
    ensures UpstreamMessage(h, 502, "", Fail("Unexpected end of JSON input")) == "Stuff+ API error: 502"
  {
    assert NatToString(502) == "502";
  }

  /** A score of 114 with raw value 1.02 is reported as 114, the 88.1st percentile, and 1.02. */
  lemma ScoreOf114(h: Host)
    requires 0.7615 < h.tanh(1.0) < 0.7616
    ensures Score(h, Record(map["stuff_plus" := Num(Finite(114.0)), "stuff_plus_raw" := Num(Finite(1.02))]))
            == Scored(Finite(114.0), 88.1, Finite(1.02))
  {
    PercentileAt114(h);
  }
}
