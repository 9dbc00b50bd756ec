# RawDigit: a digitised readout-channel waveform, in Dafny

This project models `raw::RawDigit` (`RawData/RawDigit.h`): the record of
one readout channel's digitised waveform. A digit holds:

- the channel ID (`uint32_t`; its largest value, `InvalidChannelID`, means
  "no channel");
- the number of samples of the *uncompressed* waveform (`unsigned short`);
- the stored, possibly compressed, ADC counts (`std::vector<short>`);
- the compression scheme (`raw::Compress_t`);
- a pedestal and its spread;
- a `std::bitset<16>` of flags.

Flag positions below `NLArSoftFlags` (8) belong to the digit. Of those, only
position 0 (`fiSaturation`) has a meaning. The positions above are left to
other layers.

Two modules:

- `Bitset16` (`bitset16.dfy`) models the flag type `std::bitset<16>` as a
  `bv16`. A position is a `bv4`, so every valid position has a value and
  nothing else does. It defines `Test` (`std::bitset::test`) and
  `FromULongLong`, the bitset's `unsigned long long` constructor. The flag
  constants of the digit are `unsigned long long` values that reach the
  bitset through that constructor. `Positions` gives the abstract view of a
  flag set: the set of positions that are set. It is proved to lose nothing,
  and the mask operations `|` and `& ~` are proved to act on it as union and
  difference.
- `Raw` (`raw_digit.dfy`) holds the digit. It is a class because
  `SetPedestal` updates the pedestal and its spread in place, and because
  the implicit copy assignment overwrites every field of an existing digit.
  The header offers no setter for the channel, the counts, the compression
  and the flags: only a constructor or a whole-digit assignment (`Assign`)
  gives them new values. The accessors are functions on the fields. The
  constructors' contracts are stated through the accessors, so they say what
  each accessor returns after construction. The module also holds the
  `FlagIndices_t` constants, `SaturationBit`, `DefaultFlags`,
  `InvalidChannelID`, and the lemmas about them.

The full constructor checks nothing. Any pair of a sample count and an ADC
vector is accepted. `NADC()` is the stored length, while `Samples()` is the
declared uncompressed length, and the two may differ. The model keeps this:
the constructor has no precondition.

Where the header's comment and its code disagree, the model follows the code.
The comment on `SetPedestal` (line 108) says the spread defaults to 0, but the
declaration (line 109) gives `sigma = 1.`. `SetPedestal` therefore defaults
`sigma` to `1.0`.

## Model

| member | source | states |
|---|---|---|
| `Bitset16.FromULongLong` | RawData/RawDigit.h:148-153 | position `i` of the bitset built from an `unsigned long long` is set exactly when bit `i` of the value is; higher bits are dropped |
| `Bitset16.PositionBelowWidth` | RawData/RawDigit.h:79 | every position of the flag set is below its width, 16 |
| `Bitset16.PositionsDetermineBits` | RawData/RawDigit.h:79 | a 16-bit flag set is determined by the set of positions it has set |
| `Bitset16.MaskOperationsAsSets` | RawData/RawDigit.h:58-65 | building the flags from `a` OR `b` gives the union of the two masks' positions; building them from `a & ~b` gives the positions of `a` minus those of `b` |
| `Raw.InvalidChannelIDIsMaximum` | RawData/RawDigit.h:158-159 | the invalid-channel sentinel is the largest channel ID |
| `Raw.DocumentedFlagValues` | RawData/RawDigit.h:58-65 | `DefaultFlags` OR `SaturationBit` sets exactly the saturation position (bits 1 to 15 clear); `DefaultFlags & ~SaturationBit` sets none |
| `Raw.ForeignFlagsDoNotInterfere` | RawData/RawDigit.h:87-91 | setting or clearing any mask made only of positions at or above `NLArSoftFlags` leaves every digit-owned flag, saturation included, unchanged |
| `Raw.RawDigit.Default` | RawData/RawDigit.h:186-194 | the default digit has channel `InvalidChannelID`, 0 samples, no ADC counts, pedestal and spread 0, compression `kNone`, and default flags (no position set) |
| `Raw.RawDigit.constructor` | RawData/RawDigit.h:196-210 | the full constructor stores channel, samples, ADC list, compression and flags as given (compression defaults to `kNone`, flags to `DefaultFlags`) with pedestal and spread 0; it has no precondition, so `NADC()` is the list's length, `ADC(i)` is element `i` of the list, and `Samples()` the given count even when they differ |
| `Raw.RawDigit.Copy` | RawData/RawDigit.h:162-173 | the implicit copy constructor gives a new digit with every field equal to the original's |
| `Raw.RawDigit.Assign` | RawData/RawDigit.h:162-173 | the implicit copy assignment gives every field of the digit, compression and flags included, the value the other digit had |
| `Raw.RawDigit.SetPedestal` | RawData/RawDigit.h:108-109 | sets the pedestal and its spread (default 1); its frame is those two fields only, so channel, samples, ADCs, compression and flags stay as they were |
| `Raw.RawDigit.IsSaturated` | RawData/RawDigit.h:224 | the digit is saturated exactly when position `fiSaturation` is among the positions of its flags |
| `Raw.SetPedestalDefaultSigma` | RawData/RawDigit.h:108-109 | calling `SetPedestal` with the pedestal alone leaves the spread at 1, whatever it was before; like `SetPedestal`, it changes only the pedestal and the spread, so channel, samples, ADCs, compression and flags stay as they were |
| `Raw.NonValidatingConstruction` | RawData/RawDigit.h:96-97 | for any sample count and any stored vector, the digit built from them reports `NADC()` equal to the vector's length, `ADC(i)` equal to its element `i` (no decompression), and `Samples()` equal to the given count, whether or not the two agree |
| `Raw.DocumentedConstruction` | RawData/RawDigit.h:54-65 | the construction shown in the class comment gives a saturated and an unsaturated digit that store the given counts, with `kNone` and `Samples()` equal to the vector size narrowed to `unsigned short` (so equal to `NADC()` below 65536 counts) |

The accessors `ADCs`, `NADC`, `ADC`, `Channel`, `Samples`, `GetPedestal`,
`GetSigma`, `Compression` and `Flags` (RawData/RawDigit.h:213-223 and 120-121)
return their field, its length or one of its elements. What they return is
stated by the contracts of the constructors, of `NonValidatingConstruction`
and of `SetPedestal` above.

## Left out

- Compression and decompression (`raw::Compress`, `raw::Uncompress`) live in `raw.h`, which is not part of this model. The digit never calls them.
- The enumerators of `raw::Compress_t` are declared in `SimpleTypesAndConstants/RawTypes.h`, which is not part of this model. `Compress` names `kNone` and tells the other schemes apart by a code; `kNone` is the constructor `KNone`.
- `RawData/RawDigit.cxx` is not part of this model. `SetPedestal` and `ADC` are modelled from their declarations and comments alone.
- Raw.RawDigit.ADC: an index outside `[0, NADC())` is excluded by a precondition, where the source has undefined behaviour. The index is an unbounded integer rather than a C++ `int`.
- Raw.RawDigit.GetPedestal and Raw.RawDigit.GetSigma: `float` is modelled as `real`. The values are only stored and returned, so no rounding is modelled.
- Accessors that return `const` references (`ADCs`, `Flags`) return values here. Aliasing of the returned reference is not modelled.
- The implicit move constructor and move assignment are not modelled. They transfer the fields like the copy operations (`Copy`, `Assign`), and they also leave the moved-from digit's vector in a valid but unspecified state (in practice empty), which the model does not capture.
- ROOT dictionary generation (the `__GCCXML__` sections) has no counterpart in the model.
