/** Settings to configuration image: `generate_goodix_config`. */
module Encoder {
  import opened Results
  import opened Bytes
  import opened Checksum
  import opened Layout
  import opened Validation

  /** The `ValueError`s the encoder raises. */
  datatype EncodeError =
    | InvalidResolution(reason: ResolutionError)
      /** `config[12] = max(1, touch_threshold)` with a value above 255: a bytearray refuses it. */
    | NotAByte(value: int)

  /** Settings the encoder turns into an image instead of raising. */
  predicate Encodable(s: Settings) {
    ValidateResolution(s.xMax, s.yMax) == Pass && TouchLevel(s.touchThreshold) < 256
  }

  /** The byte the encoder leaves at index `k` of the configuration area (0..183). */
  function AreaByte(s: Settings, k: int): Byte
    requires Encodable(s)
  {
    if k == VersionOffset then ConfigVersion
    else if k == XOffset then PackU16LE(s.xMax)[0]
    else if k == XOffset + 1 then PackU16LE(s.xMax)[1]
    else if k == YOffset then PackU16LE(s.yMax)[0]
    else if k == YOffset + 1 then PackU16LE(s.yMax)[1]
    else if k == TouchesOffset then ClampTouches(s.numTouchPoints)
    else if k == Switch1Offset then ModuleSwitch1
    else if k == Switch2Offset then ModuleSwitch2
    else if k == ShakeOffset then ShakeCount
    else if k == FilterOffset then Mask8(s.filterCoefficient)
    else if k == LevelOffset then TouchLevel(s.touchThreshold)
    else 0
  }

  /** Bytes 0..183, the area the checksum covers. */
  function Area(s: Settings): (a: seq<Byte>)
    requires Encodable(s)
    ensures |a| == ChecksumOffset
  {
    seq(ChecksumOffset, k => AreaByte(s, k))
  }

  /** The whole image: the area, its checksum, and the config-fresh flag. */
  function Image(s: Settings): (img: seq<Byte>)
    requires Encodable(s)
    ensures |img| == ConfigLength
  {
    Area(s) + [Checksum8(Area(s)), ConfigFresh]
  }

  /** What `generate_goodix_config` returns or raises. */
  function Encode(s: Settings): (r: Result<seq<Byte>, EncodeError>)
    ensures r.Ok? <==> Encodable(s)
    ensures r.Ok? ==> |r.value| == ConfigLength
  {
    match ValidateResolution(s.xMax, s.yMax)
    case Fail(e) => Err(InvalidResolution(e))
    case Pass =>
      if TouchLevel(s.touchThreshold) > 255 then Err(NotAByte(TouchLevel(s.touchThreshold)))
      else Ok(Image(s))
  }

  /**
   * `generate_goodix_config`: validate, allocate and zero a 186-byte buffer, store the
   * fields at their offsets, then the checksum of bytes 0..183 and the config-fresh flag.
   */
  method GenerateConfig(s: Settings) returns (r: Result<seq<Byte>, EncodeError>)
    ensures r == Encode(s)
  {
    var valid := ValidateResolution(s.xMax, s.yMax);
    if valid.Fail? {
      return Err(InvalidResolution(valid.error));
    }

    var config := new Byte[ConfigLength];
    for i := 0 to ConfigLength
      invariant forall k :: 0 <= k < i ==> config[k] == 0
    {
      config[i] := 0;
    }

    config[VersionOffset] := ConfigVersion;
    var x := PackU16LE(s.xMax);
    config[XOffset], config[XOffset + 1] := x[0], x[1];
    var y := PackU16LE(s.yMax);
    config[YOffset], config[YOffset + 1] := y[0], y[1];
    config[TouchesOffset] := ClampTouches(s.numTouchPoints);
    config[Switch1Offset] := ModuleSwitch1;
    config[Switch2Offset] := ModuleSwitch2;
    config[ShakeOffset] := ShakeCount;
    config[FilterOffset] := Mask8(s.filterCoefficient);
    var level := TouchLevel(s.touchThreshold);
    if level > 255 {
      return Err(NotAByte(level));
    }
    config[LevelOffset] := level;

    assert config[..ChecksumOffset] == Area(s);
    config[ChecksumOffset] := Checksum8(config[..ChecksumOffset]);
    config[FreshOffset] := ConfigFresh;
    assert config[..] == Image(s);
    r := Ok(config[..]);
  }

  /** Validation runs first and its error is passed on unchanged; only then can the threshold fail. */
  lemma EncodeErrors(s: Settings)
    ensures Encode(s) == Err(InvalidResolution(OutOfRange)) <==> !(InRange(s.xMax) && InRange(s.yMax))
    ensures Encode(s) == Err(InvalidResolution(Odd))
        <==> InRange(s.xMax) && InRange(s.yMax) && (s.xMax % 2 != 0 || s.yMax % 2 != 0)
    ensures Encode(s).Err? && Encode(s).error.NotAByte?
        <==> ValidateResolution(s.xMax, s.yMax) == Pass && TouchLevel(s.touchThreshold) > 255
    ensures Encode(s).Err? && Encode(s).error.NotAByte? ==> Encode(s).error.value == s.touchThreshold
  {
  }

  /** Each field sits at its offset, decodes to what was stored, and every reserved byte is zero. */
  lemma EncodeFields(s: Settings)
    requires Encode(s).Ok?
    ensures Encode(s).value[VersionOffset] == ConfigVersion
    ensures UnpackU16LE(Encode(s).value[XOffset], Encode(s).value[XOffset + 1]) == s.xMax
    ensures UnpackU16LE(Encode(s).value[YOffset], Encode(s).value[YOffset + 1]) == s.yMax
    ensures Encode(s).value[TouchesOffset] == ClampTouches(s.numTouchPoints)
    ensures Encode(s).value[Switch1Offset] == ModuleSwitch1
    ensures Encode(s).value[Switch2Offset] == ModuleSwitch2
    ensures Encode(s).value[ShakeOffset] == ShakeCount
    ensures Encode(s).value[FilterOffset] == Mask8(s.filterCoefficient)
    ensures Encode(s).value[LevelOffset] == TouchLevel(s.touchThreshold) <= 255
    ensures Encode(s).value[FreshOffset] == ConfigFresh
    ensures forall k :: Reserved(k) ==> Encode(s).value[k] == 0
  {
    UnpackPack(s.xMax);
    UnpackPack(s.yMax);
  }

  /** The stored checksum is that of bytes 0..183, so bytes 0..184 sum to zero modulo 256. */
  lemma EncodeChecksum(s: Settings)
    requires Encode(s).Ok?
    ensures Encode(s).value[ChecksumOffset] == Checksum8(Encode(s).value[..ChecksumOffset])
    ensures SumsToZero(Encode(s).value[..ChecksumOffset + 1])
  {
    var img := Encode(s).value;
    assert img[..ChecksumOffset] == Area(s);
    assert img[..ChecksumOffset + 1] == Area(s) + [img[ChecksumOffset]];
    ChecksumUnique(Area(s), img[ChecksumOffset]);
  }

  /** The checksummed area adds up to the bytes of its fields, since everything else is zero. */
  lemma AreaSum(s: Settings)
    requires Encodable(s)
    ensures Sum(Area(s)) == ConfigVersion + s.xMax % 256 + s.xMax / 256 + s.yMax % 256 + s.yMax / 256
      + ClampTouches(s.numTouchPoints) + ModuleSwitch1 + ModuleSwitch2 + ShakeCount
      + Mask8(s.filterCoefficient) + TouchLevel(s.touchThreshold)
  {
    var a := Area(s);
    var n := LevelOffset + 1;
    assert a == a[..n] + a[n..];
    SumConcat(a[..n], a[n..]);
    SumOfZeros(a[n..]);
    SumOfThirteen(a[..n]);
  }
}
