# GT911 configuration image codec

A Dafny model of the configuration codec of `goodix_gt911_config.py`, the tool that builds
the 186-byte register image a Goodix GT911 touch controller loads at registers 0x8047..0x8100.

- `Validation` holds the encoder's arguments (`Settings`), `validate_resolution`, the clamp of
  the touch-point count and the floor of the touch threshold.
- `Layout` gives the offset of every field of the image, the fixed bytes and the reserved indices.
- `Bytes` models a `bytearray` element (`Byte`, an int in 0..255), `& 0xFF`, the little-endian
  `struct` pack and unpack of an unsigned 16-bit value, and `sum`.
- `Checksum` is the 8-bit two's-complement checksum of bytes 0..183 (Python's `~` is `-x - 1`).
- `Encoder` is `generate_goodix_config`: `Encode` specifies what it returns or raises, and
  `GenerateConfig` is the imperative version. It allocates a 186-byte array, zeroes it in a loop,
  stores each field at its offset, then the checksum and the config-fresh flag. It is proved to
  return exactly `Encode`.
- `Decoder` is the field extraction of `print_config_details`.
- `RoundTrip` relates the two directions. Decoding an encoded image returns the stored fields.
  The images the encoder can produce are exactly the `WellFormed` ones, and each such image is
  the encoding of the settings decoded from it.
- `Presets` covers `PRESETS`, `load_preset` and the encoder's default arguments, with the
  default image written out byte by byte.

Exceptions are modelled as `Result`/`Outcome` values: the two `ValueError`s of
`validate_resolution`, the `ValueError` a `bytearray` raises when a threshold above 255 is
stored, and the `IndexError`/`struct.error` the decoder hits on a short buffer.

Three behaviours of the code are worth stating:

- A touch threshold whose `max(1, t)` exceeds 255 does not wrap to a byte. Storing it in the
  `bytearray` at line 204 raises `ValueError`, so `Encode` returns `Err(NotAByte(t))`.
- The decoder does not demand exactly 186 bytes. It reads fixed offsets, so any longer buffer
  is decoded. A shorter one fails at the first read, in source order, that runs past its end.
  A single-byte read raises `IndexError`; the two-byte reads at offsets 1 and 3 raise
  `struct.error`.
- The program has no checksum verification; `SumsToZero` and `WellFormed` state the property.

## Model

| member | source | states |
|---|---|---|
| `Validation.ValidateResolution` | goodix_gt911_config.py:114-119 | passes exactly when both values are in 1..4095 and even; the range error is raised exactly when either is out of range, and the parity error only when both are in range and one is odd |
| `Validation.ValidationBoundaries` | goodix_gt911_config.py:114-119 | 801 is refused as odd, 4096, 0 and -2 as out of range, and 4094 passes |
| `Validation.ClampTouches` | goodix_gt911_config.py:187 | the stored touch count is always in 1..10; counts in 1..10 are kept, lower ones become 1 and higher ones 10 |
| `Validation.TouchLevel` | goodix_gt911_config.py:204 | the stored threshold is at least 1 and at least the argument; it equals the argument when that is positive and is exactly 1 otherwise |
| `Validation.ClampExamples` | goodix_gt911_config.py:187-204 | 0 touch points store 1, 15 store 10, and thresholds 0 and -7 store 1 |
| `Bytes.Mask8` | goodix_gt911_config.py:200 | `v & 0xFF` is a byte congruent to `v` modulo 256, and equal to `v` when `v` is already a byte |
| `Bytes.MaskExamples` | goodix_gt911_config.py:200 | a filter of -1 stores 0xFF, -256 stores 0, 260 stores 4 |
| `Bytes.PackU16LE` | goodix_gt911_config.py:181-184 | packing an unsigned 16-bit value gives exactly two bytes |
| `Bytes.UnpackU16LE` | goodix_gt911_config.py:229-232 | unpacking two bytes gives a value in 0..65535 |
| `Bytes.UnpackPack` | goodix_gt911_config.py:181-232 | unpacking the little-endian bytes of a 16-bit value gives the value back |
| `Bytes.PackUnpack` | goodix_gt911_config.py:181-232 | packing the value read from two bytes gives the same two bytes back |
| `Bytes.Sum` | goodix_gt911_config.py:210 | the sum of n bytes lies in 0..255*n |
| `Checksum.Checksum8` | goodix_gt911_config.py:210-212 | the checksum is the byte (256 - sum mod 256) mod 256, so the area plus the checksum sums to 0 modulo 256 |
| `Checksum.ChecksumUnique` | goodix_gt911_config.py:210-212 | a byte appended to an area makes the sum 0 modulo 256 if and only if it is the checksum |
| `Layout.FieldsDisjoint` | goodix_gt911_config.py:225-256 | the fields read lie inside the 186 bytes in increasing order, never overlap, and never touch a reserved index |
| `Encoder.Encode` | goodix_gt911_config.py:146-217 | returns an image exactly when the resolution is valid and the threshold fits in a byte, and every image is 186 bytes long |
| `Encoder.GenerateConfig` | goodix_gt911_config.py:146-217 | the method that zeroes a 186-byte array and fills it in place returns exactly what `Encode` specifies, image or error |
| `Encoder.EncodeErrors` | goodix_gt911_config.py:156-204 | the resolution errors come first and unchanged, range before parity; the byte error occurs exactly when the resolution is valid and `max(1, threshold)` exceeds 255, and it carries that threshold |
| `Encoder.EncodeFields` | goodix_gt911_config.py:159-215 | byte 0 is 0x01; bytes 1..2 and 3..4 decode to x_max and y_max; byte 5 is the clamped count; bytes 6, 7 and 8 are 0, 0 and 3; byte 9 is the filter's low byte; byte 12 is `max(1, threshold)`; byte 185 is 0x01; indices 10, 11 and 13..183 are 0 |
| `Encoder.EncodeChecksum` | goodix_gt911_config.py:209-212 | byte 184 is the checksum of bytes 0..183, so bytes 0..184 sum to 0 modulo 256 |
| `Encoder.AreaSum` | goodix_gt911_config.py:159-210 | the sum of bytes 0..183 is the sum of the field bytes alone |
| `Decoder.DecodeConfig` | goodix_gt911_config.py:225-256 | decoding succeeds exactly when the buffer has at least 186 bytes; otherwise the failing read is a field that runs past the end, and every field at a smaller offset fits |
| `RoundTrip.DecodeEncode` | goodix_gt911_config.py:177-256 | decoding an encoded image gives version 0x01, x_max, y_max, the clamped count, switches 0 and 0, shake count 3, the filter's low byte, `max(1, threshold)`, the checksum and the fresh flag 0x01 |
| `RoundTrip.EncodeWellFormed` | goodix_gt911_config.py:146-217 | every encoded image has the fixed bytes, legal fields, zero reserved bytes and a valid checksum |
| `RoundTrip.WellFormedEncodes` | goodix_gt911_config.py:146-256 | every such well-formed image decodes, and encoding the decoded settings reproduces the image byte for byte |
| `Presets.LoadPreset` | goodix_gt911_config.py:371-376 | returns the named preset, or the 7-inch preset for a name not in the table |
| `Presets.PresetsEncode` | goodix_gt911_config.py:12-34 | every preset passes the resolution check and encodes without error |
| `Presets.LoadPresetEncodes` | goodix_gt911_config.py:371-376 | whatever name is given, the loaded settings encode |
| `Presets.DefaultsAreSevenInch` | goodix_gt911_config.py:12-150 | the encoder's default arguments are the 7-inch preset |
| `Presets.DefaultImage` | goodix_gt911_config.py:146-217 | the default settings encode to 01 00 04 58 02 05 00 00 03 04 00 00 10, then zeros up to index 183, then checksum 0x85 and fresh flag 0x01 |

## Left out

- `SudoHandler`, `check_system_requirements`, `save_config_file` and `install_config` are left out. They run subprocesses, prompt for passwords, sleep and touch the filesystem.
- `get_validated_input`, `interactive_menu`, `print_presets` and `main` are left out. They are terminal input and output loops.
- The `print` calls of `print_config_details` are left out; only its field reads are modelled, as `Decoder.DecodeConfig`.
- The `struct` module is not modelled. Its `'<H'` pack and unpack are written as byte arithmetic. Packing is only reached with validated resolutions, so `PackU16LE` requires a 16-bit value instead of modelling `struct.error`.
- `Encoder.GenerateConfig` returns the finished image as a value, not the mutable `bytearray` object. Nothing else holds a reference to that buffer.
- `load_preset` returns the shared 7-inch dictionary for an unknown name and a copy otherwise, and prints a notice for an unknown name. Object identity and the printed notice are not modelled.
- Python's dynamic typing is not modelled. The arguments are integers; floats, booleans and other types are not considered.
