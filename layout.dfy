/**
 * Where each field of the 186-byte GT911 configuration image lives. Index 0 is register
 * 0x8047, index 184 (0x80FF) holds the checksum and index 185 (0x8100) the config-fresh flag.
 */
module Layout {
  import opened Bytes

  const ConfigLength := 186

  const VersionOffset := 0
  const XOffset := 1
  const YOffset := 3
  const TouchesOffset := 5
  const Switch1Offset := 6
  const Switch2Offset := 7
  const ShakeOffset := 8
  const FilterOffset := 9
  const LevelOffset := 12
  const ChecksumOffset := 184
  const FreshOffset := 185

  /** Fixed values the encoder writes. */
  const ConfigVersion: Byte := 0x01
  const ModuleSwitch1: Byte := 0x00
  const ModuleSwitch2: Byte := 0x00
  const ShakeCount: Byte := 0x03
  const ConfigFresh: Byte := 0x01

  /** A field: its first index and its width in bytes (multi-byte fields are little-endian). */
  datatype Field = Field(offset: nat, width: nat) {
    function End(): nat { offset + width }
  }

  /** The fields the decoder reads, in the order it reads them. */
  const Fields: seq<Field> := [
    Field(VersionOffset, 1), Field(XOffset, 2), Field(YOffset, 2), Field(TouchesOffset, 1),
    Field(Switch1Offset, 1), Field(Switch2Offset, 1), Field(ShakeOffset, 1),
    Field(FilterOffset, 1), Field(LevelOffset, 1), Field(ChecksumOffset, 1), Field(FreshOffset, 1)
  ]

  /** The indices of the configuration area no field covers; the encoder leaves them zero. */
  predicate Reserved(k: int) {
    k == FilterOffset + 1 || k == FilterOffset + 2 || LevelOffset < k < ChecksumOffset
  }

  /** The fields lie inside the image, in increasing order, and never overlap. */
  lemma FieldsDisjoint()
    ensures forall j :: 0 <= j < |Fields| ==> Fields[j].End() <= ConfigLength
    ensures forall j, k :: 0 <= j < k < |Fields| ==> Fields[j].End() <= Fields[k].offset
    ensures forall j, k :: 0 <= j < |Fields| && Fields[j].offset <= k < Fields[j].End() ==> !Reserved(k)
  {
  }
}
