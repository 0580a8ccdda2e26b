/** The preset table, `load_preset`, and the encoder's default arguments. */
module Presets {
  import opened Results
  import opened Bytes
  import opened Checksum
  import opened Layout
  import opened Validation
  import opened Encoder

  const SevenInch := "7inch"

  /** `PRESETS`: canned settings for common displays. */
  const PresetTable: map<string, Settings> := map[
    SevenInch := Settings(xMax := 1024, yMax := 600, touchThreshold := 16, numTouchPoints := 5, filterCoefficient := 4),
    "5inch" := Settings(xMax := 800, yMax := 480, touchThreshold := 20, numTouchPoints := 5, filterCoefficient := 4),
    "waveshare7" := Settings(xMax := 1280, yMax := 800, touchThreshold := 28, numTouchPoints := 5, filterCoefficient := 4)
  ]

  /** The default arguments of `generate_goodix_config`. */
  const DefaultSettings := Settings(xMax := 1024, yMax := 600, touchThreshold := 16, numTouchPoints := 5, filterCoefficient := 4)

  /** `load_preset`: the named preset, or the 7-inch one for a name the table does not hold. */
  function LoadPreset(name: string): (s: Settings)
    ensures name in PresetTable ==> s == PresetTable[name]
    ensures name !in PresetTable ==> s == PresetTable[SevenInch]
    ensures s in PresetTable.Values
  {
    if name in PresetTable then PresetTable[name] else PresetTable[SevenInch]
  }

  /** Every preset passes the resolution check and encodes without error. */
  lemma PresetsEncode()
    ensures forall name :: name in PresetTable ==> ValidateResolution(PresetTable[name].xMax, PresetTable[name].yMax) == Pass
    ensures forall name :: name in PresetTable ==> Encode(PresetTable[name]).Ok?
  {
  }

  /** Whatever name is asked for, the loaded settings encode. */
  lemma LoadPresetEncodes(name: string)
    ensures Encode(LoadPreset(name)).Ok?
  {
    PresetsEncode();
  }

  /** The encoder's defaults are the 7-inch preset. */
  lemma DefaultsAreSevenInch()
    ensures DefaultSettings == PresetTable[SevenInch]
  {
  }

  /**
   * The image of the defaults: 1024 and 600 little-endian, five touch points, filter 4,
   * threshold 16; its area sums to 123, so the checksum is 256 - 123 = 0x85.
   */
  lemma DefaultImage()
    ensures Encode(DefaultSettings).Ok?
    ensures Encode(DefaultSettings).value[..LevelOffset + 1]
      == [0x01, 0x00, 0x04, 0x58, 0x02, 5, 0x00, 0x00, 3, 4, 0x00, 0x00, 16]
    ensures forall k :: LevelOffset < k < ChecksumOffset ==> Encode(DefaultSettings).value[k] == 0
    ensures Encode(DefaultSettings).value[ChecksumOffset] == 0x85
    ensures Encode(DefaultSettings).value[FreshOffset] == 0x01
  {
    var s := DefaultSettings;
    AreaSum(s);
    assert Sum(Area(s)) == 123;
    var img := Encode(s).value;
    assert img[..LevelOffset + 1] == Area(s)[..LevelOffset + 1];
  }
}
