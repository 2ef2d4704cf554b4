/**
 * The 16-byte iNES header at the front of a ROM image: magic "NES\x1A", PRG
 * and CHR sizes in 16 KB / 8 KB units, and the mapper number split over the
 * high nibbles of flag bytes 6 and 7.
 */
module INes {
  import opened Wrappers

  /** Why a ROM image is refused. */
  datatype RomParserError = TooShort | InvalidMagicBytes | MapperNotImplemented

  /** Flags6 bits. Bit 3 selects four-screen nametables. */
  const MIRRORING: bv8 := 0x01
  const PRG_RAM: bv8 := 0x02
  const TRAINER: bv8 := 0x04
  const FOUR_SCREEN: bv8 := 0x08

  /** The bits each flag byte keeps after truncation to its defined flags. */
  const FLAGS6_BITS: bv8 := 0x0F
  const FLAGS7_BITS: bv8 := 0x0F
  const FLAGS9_BITS: bv8 := 0x01
  const FLAGS10_BITS: bv8 := 0x33

  const MAGIC: seq<bv8> := [0x4E, 0x45, 0x53, 0x1A]

  datatype Header = Header(
    mapperId: bv8, prgSize: bv8, chrSize: bv8,
    flags6: bv8, flags7: bv8, flags8: bv8, flags9: bv8, flags10: bv8)

  /** The mapper number: low nibble from the high nibble of flags 6, high nibble from flags 7. */
  function MapperId(flags6: bv8, flags7: bv8): bv8
  {
    (flags6 >> 4) | (flags7 & 0xF0)
  }

  /** A header whose flag bytes hold only defined flags, as a parse produces. */
  predicate Truncated(h: Header)
  {
    h.flags6 & !FLAGS6_BITS == 0 && h.flags7 & !FLAGS7_BITS == 0 &&
    h.flags9 & !FLAGS9_BITS == 0 && h.flags10 & !FLAGS10_BITS == 0
  }

  /**
   * Parse the header: too short first, then the magic, then the fields.
   * Undefined flag bits are dropped.
   */
  function Parse(data: seq<bv8>): (r: Result<Header, RomParserError>)
    ensures |data| < 16 <==> r == Err(TooShort)
    ensures r == Err(InvalidMagicBytes) <==> |data| >= 16 && data[..4] != MAGIC
    ensures r.Err? || r.Ok?
    ensures r.Ok? ==> Truncated(r.value)
    ensures r.Ok? ==>
      r.value.prgSize == data[4] && r.value.chrSize == data[5] && r.value.flags8 == data[8] &&
      r.value.mapperId == MapperId(data[6], data[7])
    ensures r.Ok? ==>
      r.value.flags6 == data[6] & FLAGS6_BITS && r.value.flags7 == data[7] & FLAGS7_BITS &&
      r.value.flags9 == data[9] & FLAGS9_BITS && r.value.flags10 == data[10] & FLAGS10_BITS
  {
    if |data| < 16 then Err(TooShort)
    else if data[..4] != MAGIC then Err(InvalidMagicBytes)
    else Ok(Header(
      MapperId(data[6], data[7]), data[4], data[5],
      data[6] & FLAGS6_BITS, data[7] & FLAGS7_BITS, data[8],
      data[9] & FLAGS9_BITS, data[10] & FLAGS10_BITS))
  }

  /** A 16-byte header image with the mapper number in the high nibbles and zero padding. */
  function Encode(h: Header): (data: seq<bv8>)
    ensures |data| == 16 && data[..4] == MAGIC
  {
    [0x4E, 0x45, 0x53, 0x1A, h.prgSize, h.chrSize, Flags6Byte(h), Flags7Byte(h),
     h.flags8, h.flags9, h.flags10, 0, 0, 0, 0, 0]
  }

  function Flags6Byte(h: Header): bv8
  {
    (h.mapperId << 4) | h.flags6
  }

  function Flags7Byte(h: Header): bv8
  {
    (h.mapperId & 0xF0) | h.flags7
  }

  /** The mapper number survives its split over two flag bytes, and so do the flags. */
  lemma FlagBytes(h: Header)
    requires Truncated(h)
    ensures MapperId(Flags6Byte(h), Flags7Byte(h)) == h.mapperId
    ensures Flags6Byte(h) & FLAGS6_BITS == h.flags6
    ensures Flags7Byte(h) & FLAGS7_BITS == h.flags7
    ensures h.flags9 & FLAGS9_BITS == h.flags9 && h.flags10 & FLAGS10_BITS == h.flags10
  {
  }

  /** Parsing an encoded header gives it back. */
  lemma ParseEncode(h: Header)
    requires Truncated(h)
    ensures Parse(Encode(h)) == Ok(h)
  {
    FlagBytes(h);
  }

  /** Only the first 11 bytes are ever looked at, once the image is long enough. */
  lemma ParseIgnoresTail(a: seq<bv8>, b: seq<bv8>)
    requires |a| >= 16 && |b| >= 16 && a[..11] == b[..11]
    ensures Parse(a) == Parse(b)
  {
    assert a[..4] == a[..11][..4] && b[..4] == b[..11][..4];
    assert forall i :: 0 <= i < 11 ==> a[i] == a[..11][i] && b[i] == b[..11][i];
  }
}
