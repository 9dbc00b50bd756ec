/**
 * `raw::RawDigit`: the digitised waveform of one readout channel, with its
 * (possibly compressed) ADC counts, the number of samples of the
 * uncompressed waveform, the compression scheme, a pedestal and a set of
 * flags.
 */
module Raw {
  import opened Bitset16

  /** `uint32_t`, the type of a readout channel ID. */
  type ChannelID = x: int | 0 <= x < 0x1_0000_0000

  /** `unsigned short`, the type of the uncompressed sample count. */
  type UShort = x: int | 0 <= x < 0x1_0000

  /** `short`, the type of one stored ADC count. */
  type Short = x: int | -0x8000 <= x < 0x8000

  /**
   * `raw::Compress_t`. Only `kNone` (here `KNone`) is named by the digit;
   * every other scheme is told apart by its enumerator code.
   */
  datatype Compress = KNone | Other(code: nat)

  /** `Flags_t`, the digit's flag set. */
  type FlagSet = Bits

  /** `FlagIndices_t`: the saturation flag is position 0. */
  const FiSaturation: Position := 0

  /** `FlagIndices_t`: positions below this one belong to the digit itself. */
  const NLArSoftFlags: Position := 8

  /** `FlagIndices_t`: number of flags defined by the digit. */
  const NFlagIndices: Position := NLArSoftFlags

  /** Mask of the saturation bit, as an `unsigned long long`. */
  const SaturationBit: ULongLong := 1 << FiSaturation

  /** Flags of a digit built without explicit flags. */
  const DefaultFlags: ULongLong := 0

  /** The largest `uint32_t`, reserved as the ID of no channel. */
  const InvalidChannelID: ChannelID := 0xFFFF_FFFF

  /** Whether flag position `i` is owned by the digit (and not by other layers). */
  predicate OwnedFlag(i: Position)
  {
    i < NLArSoftFlags
  }

  /** No channel ID exceeds the invalid-channel sentinel. */
  lemma InvalidChannelIDIsMaximum(c: ChannelID)
    ensures c <= InvalidChannelID
    ensures InvalidChannelID == 0x1_0000_0000 - 1
  {
  }

  /**
   * The two flag values shown in the class documentation: the saturated one
   * has the saturation position set and no other, the unsaturated one has
   * no position set.
   */
  lemma DocumentedFlagValues()
    ensures Positions(FromULongLong(DefaultFlags | SaturationBit)) == {FiSaturation}
    ensures Positions(FromULongLong(DefaultFlags & !SaturationBit)) == {}
  {
    var saturated := FromULongLong(DefaultFlags | SaturationBit);
    var unsaturated := FromULongLong(DefaultFlags & !SaturationBit);
    forall i: Position
      ensures i in Positions(saturated) <==> i == FiSaturation
      ensures i !in Positions(unsaturated)
    {
      InPositions(saturated, i);
      InPositions(unsaturated, i);
    }
  }

  /**
   * Setting or clearing any flags other layers own (positions at or above
   * `NLArSoftFlags`) leaves every flag the digit owns, saturation included,
   * as it was.
   */
  lemma ForeignFlagsDoNotInterfere(f: FlagSet, m: FlagSet, j: Position)
    requires forall i: Position :: Test(m, i) ==> !OwnedFlag(i)
    requires OwnedFlag(j)
    ensures Test(f | m, j) == Test(f, j)
    ensures Test(f & !m, j) == Test(f, j)
  {
    ClearPositionUnaffected(f, m, j);
  }

  lemma ClearPositionUnaffected(f: FlagSet, m: FlagSet, j: Position)
    requires !Test(m, j)
    ensures Test(f | m, j) == Test(f, j)
    ensures Test(f & !m, j) == Test(f, j)
  {
  }

  class RawDigit {
    /** ADC readout per tick, possibly compressed, before pedestal subtraction. */
    var adc: seq<Short>
    /** The readout channel. */
    var channel: ChannelID
    /** Number of ticks of the uncompressed waveform. */
    var samples: UShort
    /** Pedestal of the channel. */
    var pedestal: real
    /** Spread of the pedestal. */
    var sigma: real
    /** Compression scheme of `adc`. */
    var compression: Compress
    /** The digit's flags. */
    var flags: FlagSet

    /** The default constructor: an empty digit of no channel. */
    constructor Default()
      ensures Channel() == InvalidChannelID
      ensures Samples() == 0
      ensures ADCs() == [] && NADC() == 0
      ensures GetPedestal() == 0.0 && GetSigma() == 0.0
      ensures Compression() == KNone
      ensures Flags() == FromULongLong(DefaultFlags) && Positions(Flags()) == {}
    {
      adc := [];
      channel := InvalidChannelID;
      samples := 0;
      pedestal := 0.0;
      sigma := 0.0;
      compression := KNone;
      flags := FromULongLong(DefaultFlags);
      new;
      forall i: Position
        ensures i !in Positions(flags)
      {
        InPositions(flags, i);
      }
    }

    /**
     * Sets every field as given, with no check that `adclist` is consistent
     * with `samples` and `compression`; the pedestal starts at 0.
     */
    constructor (channel: ChannelID, samples: UShort, adclist: seq<Short>,
                 compression: Compress := KNone,
                 flags: FlagSet := FromULongLong(DefaultFlags))
      ensures Channel() == channel
      ensures Samples() == samples
      ensures ADCs() == adclist && NADC() == |adclist|
      ensures forall i | 0 <= i < |adclist| :: ADC(i) == adclist[i]
      ensures GetPedestal() == 0.0 && GetSigma() == 0.0
      ensures Compression() == compression
      ensures Flags() == flags
    {
      this.adc := adclist;
      this.channel := channel;
      this.samples := samples;
      this.pedestal := 0.0;
      this.sigma := 0.0;
      this.compression := compression;
      this.flags := flags;
    }

    /** The implicit copy constructor: a new digit with the same value. */
    constructor Copy(other: RawDigit)
      ensures Channel() == other.Channel()
      ensures Samples() == other.Samples()
      ensures ADCs() == other.ADCs()
      ensures GetPedestal() == other.GetPedestal()
      ensures GetSigma() == other.GetSigma()
      ensures Compression() == other.Compression()
      ensures Flags() == other.Flags()
    {
      adc := other.adc;
      channel := other.channel;
      samples := other.samples;
      pedestal := other.pedestal;
      sigma := other.sigma;
      compression := other.compression;
      flags := other.flags;
    }

    /**
     * The implicit copy assignment `*this = other`: every field, compression
     * and flags included, takes the value `other` had.
     */
    method Assign(other: RawDigit)
      modifies this
      ensures Channel() == old(other.Channel())
      ensures Samples() == old(other.Samples())
      ensures ADCs() == old(other.ADCs())
      ensures GetPedestal() == old(other.GetPedestal())
      ensures GetSigma() == old(other.GetSigma())
      ensures Compression() == old(other.Compression())
      ensures Flags() == old(other.Flags())
    {
      adc, channel, samples := other.adc, other.channel, other.samples;
      pedestal, sigma := other.pedestal, other.sigma;
      compression, flags := other.compression, other.flags;
    }

    /**
     * Sets the pedestal and its spread; the spread is 1 when not given.
     * Nothing else of the digit changes: the frame names only these two
     * fields.
     */
    method SetPedestal(ped: real, sigma: real := 1.0)
      modifies this`pedestal, this`sigma
      ensures GetPedestal() == ped && GetSigma() == sigma
      ensures Channel() == old(Channel()) && Samples() == old(Samples())
      ensures ADCs() == old(ADCs()) && Compression() == old(Compression())
      ensures Flags() == old(Flags())
    {
      this.pedestal := ped;
      this.sigma := sigma;
    }

    /** The stored, possibly compressed, ADC counts. */
    function ADCs(): seq<Short>
      reads this
    {
      adc
    }

    /**
     * Number of stored (possibly compressed) ADC counts; unrelated to
     * `Samples()`, the length of the uncompressed waveform.
     */
    function NADC(): (n: nat)
      reads this
    {
      |adc|
    }

    /** Stored element `i`, with no decompression. */
    function ADC(i: int): (v: Short)
      reads this
      requires 0 <= i < NADC()
    {
      adc[i]
    }

    /** The channel the digit was read from. */
    function Channel(): ChannelID
      reads this
    {
      channel
    }

    /** Number of samples of the uncompressed waveform. */
    function Samples(): UShort
      reads this
    {
      samples
    }

    /** Pedestal level, in ADC counts. */
    function GetPedestal(): real
      reads this
    {
      pedestal
    }

    /** Spread of the pedestal. */
    function GetSigma(): real
      reads this
    {
      sigma
    }

    /** Compression scheme of the stored counts. */
    function Compression(): Compress
      reads this
    {
      compression
    }

    /** The flag set. */
    function Flags(): FlagSet
      reads this
    {
      flags
    }

    /** Whether the saturation flag is among the positions set. */
    predicate IsSaturated()
      reads this
      ensures IsSaturated() <==> FiSaturation in Positions(Flags())
    {
      InPositions(flags, FiSaturation);
      Test(flags, FiSaturation)
    }
  }

  /**
   * Sets a digit's pedestal without giving a spread: the spread becomes 1
   * whatever it was before.
   */
  method SetPedestalDefaultSigma(d: RawDigit, ped: real)
    modifies d`pedestal, d`sigma
    ensures d.GetPedestal() == ped && d.GetSigma() == 1.0
    ensures d.Channel() == old(d.Channel()) && d.Samples() == old(d.Samples())
    ensures d.ADCs() == old(d.ADCs()) && d.Compression() == old(d.Compression())
    ensures d.Flags() == old(d.Flags())
  {
    d.SetPedestal(ped);
  }

  /**
   * Builds a digit from any sample count and any stored vector: nothing ties
   * the two together, the stored elements are those given, unexpanded, and
   * the declared count is kept as given even when it differs from their number.
   */
  method NonValidatingConstruction(channel: ChannelID, samples: UShort,
                                   adclist: seq<Short>, compression: Compress)
    returns (d: RawDigit)
    ensures d.NADC() == |adclist| && d.Samples() == samples
    ensures forall i | 0 <= i < |adclist| :: d.ADC(i) == adclist[i]
    ensures d.Channel() == channel && d.Compression() == compression
  {
    d := new RawDigit(channel, samples, adclist, compression);
  }

  /**
   * The construction shown in the class documentation: the sample count is
   * the size of the ADC vector, narrowed to `unsigned short`, the scheme is
   * `kNone`, and the flags are the default with the saturation bit set or
   * cleared.
   */
  method DocumentedConstruction(channel: ChannelID, adcs: seq<Short>)
    returns (saturated: RawDigit, unsaturated: RawDigit)
    ensures saturated.IsSaturated() && !unsaturated.IsSaturated()
    ensures Positions(saturated.Flags()) == {FiSaturation}
    ensures Positions(unsaturated.Flags()) == {}
    ensures saturated.Channel() == channel && unsaturated.Channel() == channel
    ensures saturated.ADCs() == adcs && unsaturated.ADCs() == adcs
    ensures saturated.Samples() == unsaturated.Samples() == |adcs| % 0x1_0000
    ensures |adcs| < 0x1_0000 ==> saturated.Samples() == saturated.NADC()
    ensures saturated.Compression() == KNone && unsaturated.Compression() == KNone
  {
    DocumentedFlagValues();
    var samples: UShort := |adcs| % 0x1_0000;
    saturated := new RawDigit(channel, samples, adcs, KNone,
                              FromULongLong(DefaultFlags | SaturationBit));
    unsaturated := new RawDigit(channel, samples, adcs, KNone,
                                FromULongLong(DefaultFlags & !SaturationBit));
  }
}
