/** Configuration image to field view: the reads in `print_config_details`. */
module Decoder {
  import opened Results
  import opened Bytes
  import opened Layout

  /** The fields `print_config_details` extracts before printing them. */
  datatype ConfigView = ConfigView(
    version: Byte,
    xRes: int,
    yRes: int,
    touches: Byte,
    moduleSwitch1: Byte,
    moduleSwitch2: Byte,
    shakeCount: Byte,
    filter: Byte,
    touchLevel: Byte,
    checksum: Byte,
    configFresh: Byte)

  /**
   * A read past the end of the buffer: `IndexError` for a single-byte index,
   * `struct.error` for a two-byte `unpack_from`.
   */
  datatype DecodeError = IndexError(index: nat) | StructError(offset: nat)

  /** The field whose read raised the error. */
  function FailedField(e: DecodeError): Field {
    match e
    case IndexError(k) => Field(k, 1)
    case StructError(o) => Field(o, 2)
  }

  /**
   * The field extraction of `print_config_details`. Any buffer of at least 186 bytes is read;
   * a shorter one raises at the first read, in source order, that runs past its end.
   */
  function DecodeConfig(config: seq<Byte>): (r: Result<ConfigView, DecodeError>)
    ensures r.Ok? <==> |config| >= ConfigLength
    ensures r.Err? ==> FailedField(r.error) in Fields && FailedField(r.error).End() > |config|
    ensures r.Err? ==> forall f :: f in Fields && f.offset < FailedField(r.error).offset ==> f.End() <= |config|
  {
    if |config| <= VersionOffset then Err(IndexError(VersionOffset))
    else if |config| < XOffset + 2 then Err(StructError(XOffset))
    else if |config| < YOffset + 2 then Err(StructError(YOffset))
    else if |config| <= TouchesOffset then Err(IndexError(TouchesOffset))
    else if |config| <= Switch1Offset then Err(IndexError(Switch1Offset))
    else if |config| <= Switch2Offset then Err(IndexError(Switch2Offset))
    else if |config| <= ShakeOffset then Err(IndexError(ShakeOffset))
    else if |config| <= FilterOffset then Err(IndexError(FilterOffset))
    else if |config| <= LevelOffset then Err(IndexError(LevelOffset))
    else if |config| <= ChecksumOffset then Err(IndexError(ChecksumOffset))
    else if |config| <= FreshOffset then Err(IndexError(FreshOffset))
    else
      Ok(ConfigView(
        version := config[VersionOffset],
        xRes := UnpackU16LE(config[XOffset], config[XOffset + 1]),
        yRes := UnpackU16LE(config[YOffset], config[YOffset + 1]),
        touches := config[TouchesOffset],
        moduleSwitch1 := config[Switch1Offset],
        moduleSwitch2 := config[Switch2Offset],
        shakeCount := config[ShakeOffset],
        filter := config[FilterOffset],
        touchLevel := config[LevelOffset],
        checksum := config[ChecksumOffset],
        configFresh := config[FreshOffset]))
  }
}
