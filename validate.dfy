/** The backend's audio validators (`validate.py`): each returns its input or
    raises ValueError with a fixed message. Arguments are whatever JSON value the
    message carried (None for a missing key). */
module AudioValidate {
  import opened Wrappers
  import opened Json
  import opened Text
  import Base64

  /** `AudioConstraints`. */
  datatype AudioConstraints = AudioConstraints(
    allowedFormats: seq<string>,
    minSampleRate: int,
    maxSampleRate: int,
    maxAudioBytesPerChunk: int,
    requiredSampleRate: Option<int>)

  /** `DEFAULT_AUDIO_CONSTRAINTS`: pcm16 only, 8000-48000 Hz, 5 MiB per chunk, no required rate. */
  const DefaultConstraints := AudioConstraints(["pcm16"], 8000, 48000, 5 * 1024 * 1024, None)

  /** `",".join(xs)`. */
  function JoinComma(xs: seq<string>): (r: string)
    ensures |xs| == 1 ==> r == xs[0]
  {
    if xs == [] then "" else if |xs| == 1 then xs[0] else xs[0] + "," + JoinComma(xs[1..])
  }

  /** The rates a constraint set admits: exactly the required one when there is
      one, otherwise the closed range. */
  predicate RateAllowed(v: int, c: AudioConstraints) {
    if c.requiredSampleRate.Some? then v == c.requiredSampleRate.value
    else c.minSampleRate <= v <= c.maxSampleRate
  }

  /** `validate_sample_rate`: a positive `int` (a bool counts, as `isinstance` says)
      that the constraints admit, returned unchanged. */
  function ValidateSampleRate(sr: Json, c: AudioConstraints): (r: Result<int>)
    ensures r.Ok? <==> IsPyInt(sr) && PyIntValue(sr) > 0 && RateAllowed(PyIntValue(sr), c)
    ensures r.Ok? ==> r.value == PyIntValue(sr)
    ensures !(IsPyInt(sr) && PyIntValue(sr) > 0) ==> r == Raise(ValueError, "Invalid sample_rate")
    ensures IsPyInt(sr) && PyIntValue(sr) > 0 && !RateAllowed(PyIntValue(sr), c) ==>
      r.error.kind == ValueError &&
      r.error.message == (if c.requiredSampleRate.Some?
        then "Invalid sample_rate (expected " + IntToString(c.requiredSampleRate.value) + ")"
        else "Invalid sample_rate (allowed " + IntToString(c.minSampleRate) + "-" + IntToString(c.maxSampleRate) + ")")
  {
    if !IsPyInt(sr) then Raise(ValueError, "Invalid sample_rate")
    else
      var v := PyIntValue(sr);
      if v <= 0 then Raise(ValueError, "Invalid sample_rate")
      else if c.requiredSampleRate.Some? then
        if v != c.requiredSampleRate.value then
          Raise(ValueError, "Invalid sample_rate (expected " + IntToString(c.requiredSampleRate.value) + ")")
        else Ok(v)
      else if v < c.minSampleRate || v > c.maxSampleRate then
        Raise(ValueError, "Invalid sample_rate (allowed " + IntToString(c.minSampleRate) + "-" + IntToString(c.maxSampleRate) + ")")
      else Ok(v)
  }

  /** `validate_format`: a non-empty string among the allowed formats, returned unchanged. */
  function ValidateFormat(fmt: Json, c: AudioConstraints): (r: Result<string>)
    ensures r.Ok? <==> fmt.JStr? && fmt.s != "" && fmt.s in c.allowedFormats
    ensures r.Ok? ==> r.value == fmt.s
    ensures !(fmt.JStr? && fmt.s != "") ==> r == Raise(ValueError, "Invalid format")
    ensures fmt.JStr? && fmt.s != "" && fmt.s !in c.allowedFormats ==>
      r == Raise(ValueError, "Only format=" + JoinComma(c.allowedFormats) + " supported")
  {
    if !fmt.JStr? || fmt.s == "" then Raise(ValueError, "Invalid format")
    else if fmt.s !in c.allowedFormats then Raise(ValueError, "Only format=" + JoinComma(c.allowedFormats) + " supported")
    else Ok(fmt.s)
  }

  /** `validate_b64_string`: a non-empty string, returned unchanged. */
  function ValidateB64String(data: Json): (r: Result<string>)
    ensures r.Ok? <==> data.JStr? && data.s != ""
    ensures r.Ok? ==> r.value == data.s
    ensures r.Err? ==> r.error == Error(ValueError, "Missing audio data")
  {
    if !data.JStr? || data.s == "" then Raise(ValueError, "Missing audio data") else Ok(data.s)
  }

  /** `validate_audio_bytes_size`: raises exactly when the chunk is longer than the limit. */
  function ValidateAudioBytesSize(audio: seq<Base64.byte>, c: AudioConstraints): (r: Result<()>)
    ensures r.Err? <==> |audio| > c.maxAudioBytesPerChunk
    ensures r.Err? ==> r.error == Error(ValueError, "Audio chunk too large")
  {
    if |audio| > c.maxAudioBytesPerChunk then Raise(ValueError, "Audio chunk too large") else Ok(())
  }

  /** Under the default constraints only "pcm16" passes, and any other non-empty
      string is told "Only format=pcm16 supported". */
  lemma DefaultFormat(fmt: Json)
    ensures ValidateFormat(fmt, DefaultConstraints).Ok? <==> fmt == JStr("pcm16")
    ensures fmt.JStr? && fmt.s != "" && fmt.s != "pcm16" ==>
      ValidateFormat(fmt, DefaultConstraints) == Raise(ValueError, "Only format=pcm16 supported")
  {
  }

  /** Under the default constraints a rate passes exactly when it lies in
      8000..48000, and an integer outside is told the range. */
  lemma DefaultSampleRate(sr: Json)
    ensures ValidateSampleRate(sr, DefaultConstraints).Ok? <==> IsPyInt(sr) && 8000 <= PyIntValue(sr) <= 48000
    ensures IsPyInt(sr) && PyIntValue(sr) > 0 && !(8000 <= PyIntValue(sr) <= 48000) ==>
      ValidateSampleRate(sr, DefaultConstraints) == Raise(ValueError, "Invalid sample_rate (allowed 8000-48000)")
  {
    RangeMessage();
  }

  /** The message for a rate outside the default range, written out: the two
      bounds print as their decimal digits. */
  lemma RangeMessage()
    ensures "Invalid sample_rate (allowed " + IntToString(8000) + "-" + IntToString(48000) + ")"
      == "Invalid sample_rate (allowed 8000-48000)"
  {
    assert NatToString(800) == "800";
    assert IntToString(8000) == "8000";
    assert NatToString(4800) == "4800";
    assert IntToString(48000) == "48000";
  }

  /** A chunk of exactly 5 MiB passes the default size check; one byte more does not. */
  lemma DefaultSizeBoundary(audio: seq<Base64.byte>)
    ensures ValidateAudioBytesSize(audio, DefaultConstraints).Ok? <==> |audio| <= 5242880
  {
  }
}
