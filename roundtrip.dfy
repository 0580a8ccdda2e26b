/** The encoder and the decoder against each other. */
module RoundTrip {
  import opened Results
  import opened Bytes
  import opened Checksum
  import opened Layout
  import opened Validation
  import opened Encoder
  import opened Decoder

  /** The settings a decoded view describes, field by field. */
  function SettingsOf(v: ConfigView): Settings {
    Settings(
      xMax := v.xRes,
      yMax := v.yRes,
      touchThreshold := v.touchLevel,
      numTouchPoints := v.touches,
      filterCoefficient := v.filter)
  }

  /** An image the encoder can produce: fixed bytes, legal fields, zero reserved bytes, valid checksum. */
  predicate WellFormed(img: seq<Byte>) {
    && |img| == ConfigLength
    && img[VersionOffset] == ConfigVersion
    && ValidateResolution(UnpackU16LE(img[XOffset], img[XOffset + 1]), UnpackU16LE(img[YOffset], img[YOffset + 1])) == Pass
    && 1 <= img[TouchesOffset] <= MaxTouchPoints
    && img[Switch1Offset] == ModuleSwitch1
    && img[Switch2Offset] == ModuleSwitch2
    && img[ShakeOffset] == ShakeCount
    && img[LevelOffset] >= 1
    && (forall k :: 0 <= k < ChecksumOffset && Reserved(k) ==> img[k] == 0)
    && SumsToZero(img[..ChecksumOffset + 1])
    && img[FreshOffset] == ConfigFresh
  }

  /** Decoding an encoded image gives back each field as the encoder stored it. */
  lemma DecodeEncode(s: Settings)
    requires Encode(s).Ok?
    ensures DecodeConfig(Encode(s).value) == Ok(ConfigView(
      version := ConfigVersion,
      xRes := s.xMax,
      yRes := s.yMax,
      touches := ClampTouches(s.numTouchPoints),
      moduleSwitch1 := ModuleSwitch1,
      moduleSwitch2 := ModuleSwitch2,
      shakeCount := ShakeCount,
      filter := Mask8(s.filterCoefficient),
      touchLevel := TouchLevel(s.touchThreshold),
      checksum := Checksum8(Encode(s).value[..ChecksumOffset]),
      configFresh := ConfigFresh))
  {
    EncodeFields(s);
    EncodeChecksum(s);
  }

  /** Everything the encoder produces is well formed. */
  lemma EncodeWellFormed(s: Settings)
    requires Encode(s).Ok?
    ensures WellFormed(Encode(s).value)
  {
    EncodeFields(s);
    EncodeChecksum(s);
  }

  /** Every well-formed image is what the encoder makes of the settings decoded from it. */
  lemma WellFormedEncodes(img: seq<Byte>)
    requires WellFormed(img)
    ensures DecodeConfig(img).Ok?
    ensures Encode(SettingsOf(DecodeConfig(img).value)) == Ok(img)
  {
    var s := SettingsOf(DecodeConfig(img).value);
    assert Encodable(s);
    PackUnpack(img[XOffset], img[XOffset + 1]);
    PackUnpack(img[YOffset], img[YOffset + 1]);
    assert Area(s) == img[..ChecksumOffset];
    assert img[..ChecksumOffset + 1] == img[..ChecksumOffset] + [img[ChecksumOffset]];
    ChecksumUnique(img[..ChecksumOffset], img[ChecksumOffset]);
    assert Image(s) == img;
  }
}
