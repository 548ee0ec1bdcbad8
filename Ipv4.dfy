/** The IPv4 containers of the generated packed header: the one-byte Type of
  * Service and Flags containers, whose fields are numbered from the least
  * significant bit, and the six-word internet header of section 3.1 of
  * RFC 791, whose fields are numbered from the most significant bit of each
  * word. Every accessor is the shift-and-mask algorithm with the field's
  * shift and mask written out. */
module Ipv4 {

  /** The eight precedence levels of the Type of Service byte. */
  datatype Precedence =
    | Routine | Priority | Immediate | Flash
    | FlashOverride | CriticEcp | InternetworkControl | NetworkControl

  /** `static_cast<uint8_t>(enumVal)` */
  function PrecedenceCode(p: Precedence): (b: bv8)
    ensures b <= 7
  {
    match p
    case Routine => 0
    case Priority => 1
    case Immediate => 2
    case Flash => 3
    case FlashOverride => 4
    case CriticEcp => 5
    case InternetworkControl => 6
    case NetworkControl => 7
  }

  /** `static_cast<enum Precedence>(val)`: every 3-bit value names a level. */
  function PrecedenceOf(b: bv8): (p: Precedence)
    requires b <= 7
    ensures PrecedenceCode(p) == b
  {
    if b == 0 then Routine
    else if b == 1 then Priority
    else if b == 2 then Immediate
    else if b == 3 then Flash
    else if b == 4 then FlashOverride
    else if b == 5 then CriticEcp
    else if b == 6 then InternetworkControl
    else NetworkControl
  }

  lemma PrecedenceRoundTrip(p: Precedence)
    ensures PrecedenceOf(PrecedenceCode(p)) == p
  {}

  /** `uint8_t(val)`: a bool stored as one bit. */
  function BitOf(b: bool): (r: bv8)
    ensures r <= 1 && (r == 1 <==> b)
  {
    if b then 1 else 0
  }

  /** Everything the getters of the Type of Service byte report. */
  datatype TosFields = TosFields(precedence: Precedence, delay: bool, throughput: bool,
                                 reliability: bool, reserved: bv8)

  /** Type of Service: Precedence in bits 0-2, Delay in bit 3, Throughput in
    * bit 4, Reliability in bit 5 and Reserved in bits 6-7. */
  class IpTos {
    var data: bv8

    /** `ip_tos(uint8_t data = 0U)`; `operator uint8_t` reads `data` back. */
    constructor(init: bv8)
      ensures data == init
    {
      data := init;
    }

    function GetPrecedence(): (p: Precedence)
      reads this
      ensures PrecedenceCode(p) == data & 7
    {
      PrecedenceOf((data >> 0) & 7)
    }

    function GetDelay(): (b: bool)
      reads this
      ensures b <==> data & 0x08 != 0
    {
      (data >> 3) & 1 == 1
    }

    function GetThroughput(): (b: bool)
      reads this
      ensures b <==> data & 0x10 != 0
    {
      (data >> 4) & 1 == 1
    }

    function GetReliability(): (b: bool)
      reads this
      ensures b <==> data & 0x20 != 0
    {
      (data >> 5) & 1 == 1
    }

    function GetReserved(): (r: bv8)
      reads this
      ensures r <= 3
    {
      (data >> 6) & 3
    }

    function Fields(): TosFields
      reads this
    {
      TosFields(GetPrecedence(), GetDelay(), GetThroughput(), GetReliability(), GetReserved())
    }

    method SetPrecedence(p: Precedence)
      modifies this
      ensures data == (old(data) & !(7 << 0)) | (PrecedenceCode(p) << 0)
      ensures Fields() == old(Fields()).(precedence := p)
    {
      data := (data & !(7 << 0)) | (PrecedenceCode(p) << 0);
    }

    method SetDelay(val: bool)
      modifies this
      ensures data == (old(data) & !(1 << 3)) | (BitOf(val) << 3)
      ensures Fields() == old(Fields()).(delay := val)
    {
      data := (data & !(1 << 3)) | (BitOf(val) << 3);
    }

    method SetThroughput(val: bool)
      modifies this
      ensures data == (old(data) & !(1 << 4)) | (BitOf(val) << 4)
      ensures Fields() == old(Fields()).(throughput := val)
    {
      data := (data & !(1 << 4)) | (BitOf(val) << 4);
    }

    method SetReliability(val: bool)
      modifies this
      ensures data == (old(data) & !(1 << 5)) | (BitOf(val) << 5)
      ensures Fields() == old(Fields()).(reliability := val)
    {
      data := (data & !(1 << 5)) | (BitOf(val) << 5);
    }

    method SetReserved(val: bv8)
      requires val <= 3
      modifies this
      ensures data == (old(data) & !(3 << 6)) | (val << 6)
      ensures Fields() == old(Fields()).(reserved := val)
    {
      data := (data & !(3 << 6)) | (val << 6);
    }
  }

  /** The fields of the Type of Service byte cover its eight bits, so the
    * getters determine the byte. */
  lemma TosFieldsDetermineByte(a: IpTos, b: IpTos)
    requires a.Fields() == b.Fields()
    ensures a.data == b.data
  {
    assert a.data & 7 == b.data & 7 by {
      assert PrecedenceCode(a.GetPrecedence()) == PrecedenceCode(b.GetPrecedence());
    }
  }

  /** Everything the getters of the Flags byte report. */
  datatype FlagsFields = FlagsFields(reserved: bool, df: bool, mf: bool)

  /** Various Control Flags: reserved in bit 0, DF (true: Don't Fragment,
    * false: May Fragment) in bit 1, MF (true: More Fragments, false: Last
    * Fragment) in bit 2. */
  class IpFlags {
    var data: bv8

    /** `ip_flags(uint8_t data = 0U)` */
    constructor(init: bv8)
      ensures data == init
    {
      data := init;
    }

    function GetReserved(): (b: bool)
      reads this
      ensures b <==> data & 0x01 != 0
    {
      (data >> 0) & 1 == 1
    }

    function GetDF(): (b: bool)
      reads this
      ensures b <==> data & 0x02 != 0
    {
      (data >> 1) & 1 == 1
    }

    function GetMF(): (b: bool)
      reads this
      ensures b <==> data & 0x04 != 0
    {
      (data >> 2) & 1 == 1
    }

    function Fields(): FlagsFields
      reads this
    {
      FlagsFields(GetReserved(), GetDF(), GetMF())
    }

    method SetReserved(val: bool)
      modifies this
      ensures data == (old(data) & !(1 << 0)) | (BitOf(val) << 0)
      ensures Fields() == old(Fields()).(reserved := val)
    {
      data := (data & !(1 << 0)) | (BitOf(val) << 0);
    }

    method SetDF(val: bool)
      modifies this
      ensures data == (old(data) & !(1 << 1)) | (BitOf(val) << 1)
      ensures Fields() == old(Fields()).(df := val)
    {
      data := (data & !(1 << 1)) | (BitOf(val) << 1);
    }

    method SetMF(val: bool)
      modifies this
      ensures data == (old(data) & !(1 << 2)) | (BitOf(val) << 2)
      ensures Fields() == old(Fields()).(mf := val)
    {
      data := (data & !(1 << 2)) | (BitOf(val) << 2);
    }
  }

  /** The three flags occupy bits 0-2 only: a byte with all flags set is 7. */
  lemma FlagsFitThreeBits(f: IpFlags)
    requires f.data <= 7
    ensures f.data == BitOf(f.GetReserved()) | (BitOf(f.GetDF()) << 1) | (BitOf(f.GetMF()) << 2)
  {}

  /** A byte widened to a word and narrowed back is unchanged. */
  lemma WidenNarrow(b: bv8)
    ensures b as bv32 <= 0xFF && (b as bv32) as bv8 == b
  {}

  /** Version: offset 0, width 4 in word 0; shift 32 - 4 - 0 = 28, mask (1 << 4) - 1. */
  function Version(w: bv32): (r: bv32)
    ensures r <= 0xF
  {
    (w >> 28) & 0xF
  }

  function PutVersion(w: bv32, val: bv32): (r: bv32)
    ensures Version(r) == val & 0xF
  {
    (w & !(0xF << 28)) | (val << 28)
  }

  /** Ihl: offset 4, width 4 in word 0; shift 32 - 4 - 4 = 24, mask (1 << 4) - 1. */
  function Ihl(w: bv32): (r: bv32)
    ensures r <= 0xF
  {
    (w >> 24) & 0xF
  }

  function PutIhl(w: bv32, val: bv32): (r: bv32)
    ensures Ihl(r) == val & 0xF
  {
    (w & !(0xF << 24)) | (val << 24)
  }

  /** Tos: offset 8, width 8 in word 0; shift 32 - 8 - 8 = 16, mask (1 << 8) - 1. */
  function Tos(w: bv32): (r: bv32)
    ensures r <= 0xFF
  {
    (w >> 16) & 0xFF
  }

  function PutTos(w: bv32, val: bv32): (r: bv32)
    ensures Tos(r) == val & 0xFF
  {
    (w & !(0xFF << 16)) | (val << 16)
  }

  /** TotLen: offset 16, width 16 in word 0; shift 32 - 16 - 16 = 0, mask (1 << 16) - 1. */
  function TotLen(w: bv32): (r: bv32)
    ensures r <= 0xFFFF
  {
    (w >> 0) & 0xFFFF
  }

  function PutTotLen(w: bv32, val: bv32): (r: bv32)
    ensures TotLen(r) == val & 0xFFFF
  {
    (w & !(0xFFFF << 0)) | (val << 0)
  }

  /** Id: offset 0, width 16 in word 1; shift 32 - 16 - 0 = 16, mask (1 << 16) - 1. */
  function Id(w: bv32): (r: bv32)
    ensures r <= 0xFFFF
  {
    (w >> 16) & 0xFFFF
  }

  function PutId(w: bv32, val: bv32): (r: bv32)
    ensures Id(r) == val & 0xFFFF
  {
    (w & !(0xFFFF << 16)) | (val << 16)
  }

  /** Flags: offset 16, width 3 in word 1; shift 32 - 3 - 16 = 13, mask (1 << 3) - 1. */
  function Flags(w: bv32): (r: bv32)
    ensures r <= 7
  {
    (w >> 13) & 7
  }

  function PutFlags(w: bv32, val: bv32): (r: bv32)
    ensures Flags(r) == val & 7
  {
    (w & !(7 << 13)) | (val << 13)
  }

  /** FragOff: offset 19, width 13 in word 1; shift 32 - 13 - 19 = 0, mask (1 << 13) - 1. */
  function FragOff(w: bv32): (r: bv32)
    ensures r <= 0x1FFF
  {
    (w >> 0) & 0x1FFF
  }

  function PutFragOff(w: bv32, val: bv32): (r: bv32)
    ensures FragOff(r) == val & 0x1FFF
  {
    (w & !(0x1FFF << 0)) | (val << 0)
  }

  /** Ttl: offset 0, width 8 in word 2; shift 32 - 8 - 0 = 24, mask (1 << 8) - 1. */
  function Ttl(w: bv32): (r: bv32)
    ensures r <= 0xFF
  {
    (w >> 24) & 0xFF
  }

  function PutTtl(w: bv32, val: bv32): (r: bv32)
    ensures Ttl(r) == val & 0xFF
  {
    (w & !(0xFF << 24)) | (val << 24)
  }

  /** Protocol: offset 8, width 8 in word 2; shift 32 - 8 - 8 = 16, mask (1 << 8) - 1. */
  function Protocol(w: bv32): (r: bv32)
    ensures r <= 0xFF
  {
    (w >> 16) & 0xFF
  }

  function PutProtocol(w: bv32, val: bv32): (r: bv32)
    ensures Protocol(r) == val & 0xFF
  {
    (w & !(0xFF << 16)) | (val << 16)
  }

  /** Check: offset 16, width 16 in word 2; shift 32 - 16 - 16 = 0, mask (1 << 16) - 1. */
  function Check(w: bv32): (r: bv32)
    ensures r <= 0xFFFF
  {
    (w >> 0) & 0xFFFF
  }

  function PutCheck(w: bv32, val: bv32): (r: bv32)
    ensures Check(r) == val & 0xFFFF
  {
    (w & !(0xFFFF << 0)) | (val << 0)
  }

  /** Options: offset 0, width 24 in word 5; shift 32 - 24 - 0 = 8, mask (1 << 24) - 1. */
  function Options(w: bv32): (r: bv32)
    ensures r <= 0xFF_FFFF
  {
    (w >> 8) & 0xFF_FFFF
  }

  function PutOptions(w: bv32, val: bv32): (r: bv32)
    ensures Options(r) == val & 0xFF_FFFF
  {
    (w & !(0xFF_FFFF << 8)) | (val << 8)
  }

  /** Padding: offset 24, width 8 in word 5; shift 32 - 8 - 24 = 0, mask (1 << 8) - 1. */
  function Padding(w: bv32): (r: bv32)
    ensures r <= 0xFF
  {
    (w >> 0) & 0xFF
  }

  function PutPadding(w: bv32, val: bv32): (r: bv32)
    ensures Padding(r) == val & 0xFF
  {
    (w & !(0xFF << 0)) | (val << 0)
  }

  /** Storing a value that fits in Version reads it back and leaves the other fields of the word alone. */
  lemma PutVersionEffect(w: bv32, val: bv32)
    requires val <= 0xF
    ensures Version(PutVersion(w, val)) == val
    ensures Ihl(PutVersion(w, val)) == Ihl(w)
    ensures Tos(PutVersion(w, val)) == Tos(w)
    ensures TotLen(PutVersion(w, val)) == TotLen(w)
  {}

  /** Storing a value that fits in Ihl reads it back and leaves the other fields of the word alone. */
  lemma PutIhlEffect(w: bv32, val: bv32)
    requires val <= 0xF
    ensures Ihl(PutIhl(w, val)) == val
    ensures Version(PutIhl(w, val)) == Version(w)
    ensures Tos(PutIhl(w, val)) == Tos(w)
    ensures TotLen(PutIhl(w, val)) == TotLen(w)
  {}

  /** Storing a value that fits in Tos reads it back and leaves the other fields of the word alone. */
  lemma PutTosEffect(w: bv32, val: bv32)
    requires val <= 0xFF
    ensures Tos(PutTos(w, val)) == val
    ensures Version(PutTos(w, val)) == Version(w)
    ensures Ihl(PutTos(w, val)) == Ihl(w)
    ensures TotLen(PutTos(w, val)) == TotLen(w)
  {}

  /** Storing a value that fits in TotLen reads it back and leaves the other fields of the word alone. */
  lemma PutTotLenEffect(w: bv32, val: bv32)
    requires val <= 0xFFFF
    ensures TotLen(PutTotLen(w, val)) == val
    ensures Version(PutTotLen(w, val)) == Version(w)
    ensures Ihl(PutTotLen(w, val)) == Ihl(w)
    ensures Tos(PutTotLen(w, val)) == Tos(w)
  {}

  /** The fields of word 0 tile its 32 bits: their values determine the word. */
  lemma Word0Tiled(w: bv32, v: bv32)
    requires Version(w) == Version(v)
    requires Ihl(w) == Ihl(v)
    requires Tos(w) == Tos(v)
    requires TotLen(w) == TotLen(v)
    ensures w == v
  {}

  /** Storing a value that fits in Id reads it back and leaves the other fields of the word alone. */
  lemma PutIdEffect(w: bv32, val: bv32)
    requires val <= 0xFFFF
    ensures Id(PutId(w, val)) == val
    ensures Flags(PutId(w, val)) == Flags(w)
    ensures FragOff(PutId(w, val)) == FragOff(w)
  {}

  /** Storing a value that fits in Flags reads it back and leaves the other fields of the word alone. */
  lemma PutFlagsEffect(w: bv32, val: bv32)
    requires val <= 7
    ensures Flags(PutFlags(w, val)) == val
    ensures Id(PutFlags(w, val)) == Id(w)
    ensures FragOff(PutFlags(w, val)) == FragOff(w)
  {}

  /** Storing a value that fits in FragOff reads it back and leaves the other fields of the word alone. */
  lemma PutFragOffEffect(w: bv32, val: bv32)
    requires val <= 0x1FFF
    ensures FragOff(PutFragOff(w, val)) == val
    ensures Id(PutFragOff(w, val)) == Id(w)
    ensures Flags(PutFragOff(w, val)) == Flags(w)
  {}

  /** The fields of word 1 tile its 32 bits: their values determine the word. */
  lemma Word1Tiled(w: bv32, v: bv32)
    requires Id(w) == Id(v)
    requires Flags(w) == Flags(v)
    requires FragOff(w) == FragOff(v)
    ensures w == v
  {}

  /** Storing a value that fits in Ttl reads it back and leaves the other fields of the word alone. */
  lemma PutTtlEffect(w: bv32, val: bv32)
    requires val <= 0xFF
    ensures Ttl(PutTtl(w, val)) == val
    ensures Protocol(PutTtl(w, val)) == Protocol(w)
    ensures Check(PutTtl(w, val)) == Check(w)
  {}

  /** Storing a value that fits in Protocol reads it back and leaves the other fields of the word alone. */
  lemma PutProtocolEffect(w: bv32, val: bv32)
    requires val <= 0xFF
    ensures Protocol(PutProtocol(w, val)) == val
    ensures Ttl(PutProtocol(w, val)) == Ttl(w)
    ensures Check(PutProtocol(w, val)) == Check(w)
  {}

  /** Storing a value that fits in Check reads it back and leaves the other fields of the word alone. */
  lemma PutCheckEffect(w: bv32, val: bv32)
    requires val <= 0xFFFF
    ensures Check(PutCheck(w, val)) == val
    ensures Ttl(PutCheck(w, val)) == Ttl(w)
    ensures Protocol(PutCheck(w, val)) == Protocol(w)
  {}

  /** The fields of word 2 tile its 32 bits: their values determine the word. */
  lemma Word2Tiled(w: bv32, v: bv32)
    requires Ttl(w) == Ttl(v)
    requires Protocol(w) == Protocol(v)
    requires Check(w) == Check(v)
    ensures w == v
  {}

  /** Storing a value that fits in Options reads it back and leaves the other fields of the word alone. */
  lemma PutOptionsEffect(w: bv32, val: bv32)
    requires val <= 0xFF_FFFF
    ensures Options(PutOptions(w, val)) == val
    ensures Padding(PutOptions(w, val)) == Padding(w)
  {}

  /** Storing a value that fits in Padding reads it back and leaves the other fields of the word alone. */
  lemma PutPaddingEffect(w: bv32, val: bv32)
    requires val <= 0xFF
    ensures Padding(PutPadding(w, val)) == val
    ensures Options(PutPadding(w, val)) == Options(w)
  {}

  /** The fields of word 5 tile its 32 bits: their values determine the word. */
  lemma Word5Tiled(w: bv32, v: bv32)
    requires Options(w) == Options(v)
    requires Padding(w) == Padding(v)
    ensures w == v
  {}

  /** Internet Header Format: six 32-bit words. */
  class IpHeader {
    const data: array<bv32>

    predicate Valid()
    {
      data.Length == 6
    }

    /** `std::array<uint32_t, 6> m_data{}`: every word, hence every field, starts at zero. */
    constructor()
      ensures Valid() && fresh(data)
      ensures forall k :: 0 <= k < 6 ==> data[k] == 0
      ensures GetVersion() == 0 && GetIhl() == 0 && TosByte() == 0 && GetTotLen() == 0 && GetId() == 0 && FlagsByte() == 0 && GetFragOff() == 0 && GetTtl() == 0 && GetProtocol() == 0 && GetCheck() == 0 && GetSaddr() == 0 && GetDaddr() == 0 && GetOptions() == 0 && GetPadding() == 0
    {
      data := new bv32[6](_ => 0);
    }

    function GetVersion(): (r: bv32)
      requires Valid()
      reads data
      ensures r <= 0xF
    {
      Version(data[0])
    }

    function GetIhl(): (r: bv32)
      requires Valid()
      reads data
      ensures r <= 0xF
    {
      Ihl(data[0])
    }

    /** The byte that `getTos` wraps in a fresh container. */
    function TosByte(): (b: bv8)
      requires Valid()
      reads data
      ensures b as bv32 == Tos(data[0])
    {
      Tos(data[0]) as bv8
    }

    function GetTotLen(): (r: bv32)
      requires Valid()
      reads data
      ensures r <= 0xFFFF
    {
      TotLen(data[0])
    }

    function GetId(): (r: bv32)
      requires Valid()
      reads data
      ensures r <= 0xFFFF
    {
      Id(data[1])
    }

    /** The byte that `getFlags` wraps in a fresh container. */
    function FlagsByte(): (b: bv8)
      requires Valid()
      reads data
      ensures b <= 7 && b as bv32 == Flags(data[1])
    {
      Flags(data[1]) as bv8
    }

    function GetFragOff(): (r: bv32)
      requires Valid()
      reads data
      ensures r <= 0x1FFF
    {
      FragOff(data[1])
    }

    function GetTtl(): (r: bv32)
      requires Valid()
      reads data
      ensures r <= 0xFF
    {
      Ttl(data[2])
    }

    function GetProtocol(): (r: bv32)
      requires Valid()
      reads data
      ensures r <= 0xFF
    {
      Protocol(data[2])
    }

    function GetCheck(): (r: bv32)
      requires Valid()
      reads data
      ensures r <= 0xFFFF
    {
      Check(data[2])
    }

    function GetSaddr(): (r: bv32)
      requires Valid()
      reads data
      ensures r == data[3]
    {
      data[3]
    }

    function GetDaddr(): (r: bv32)
      requires Valid()
      reads data
      ensures r == data[4]
    {
      data[4]
    }

    function GetOptions(): (r: bv32)
      requires Valid()
      reads data
      ensures r <= 0xFF_FFFF
    {
      Options(data[5])
    }

    function GetPadding(): (r: bv32)
      requires Valid()
      reads data
      ensures r <= 0xFF
    {
      Padding(data[5])
    }

    method SetVersion(val: bv32)
      requires Valid() && val <= 0xF
      modifies data
      ensures data[..] == old(data[..])[0 := PutVersion(old(data[0]), val)]
      ensures GetVersion() == val
    {
      PutVersionEffect(data[0], val);
      data[0] := PutVersion(data[0], val);
    }

    method SetIhl(val: bv32)
      requires Valid() && val <= 0xF
      modifies data
      ensures data[..] == old(data[..])[0 := PutIhl(old(data[0]), val)]
      ensures GetIhl() == val
    {
      PutIhlEffect(data[0], val);
      data[0] := PutIhl(data[0], val);
    }

    method GetTos() returns (c: IpTos)
      requires Valid()
      ensures fresh(c) && c.data == TosByte()
    {
      c := new IpTos(Tos(data[0]) as bv8);
    }

    method SetTos(val: IpTos)
      requires Valid()
      modifies data
      ensures data[..] == old(data[..])[0 := PutTos(old(data[0]), val.data as bv32)]
      ensures TosByte() == val.data
    {
      WidenNarrow(val.data);
      PutTosEffect(data[0], val.data as bv32);
      data[0] := PutTos(data[0], val.data as bv32);
    }

    method SetTotLen(val: bv32)
      requires Valid() && val <= 0xFFFF
      modifies data
      ensures data[..] == old(data[..])[0 := PutTotLen(old(data[0]), val)]
      ensures GetTotLen() == val
    {
      PutTotLenEffect(data[0], val);
      data[0] := PutTotLen(data[0], val);
    }

    method SetId(val: bv32)
      requires Valid() && val <= 0xFFFF
      modifies data
      ensures data[..] == old(data[..])[1 := PutId(old(data[1]), val)]
      ensures GetId() == val
    {
      PutIdEffect(data[1], val);
      data[1] := PutId(data[1], val);
    }

    method GetFlags() returns (c: IpFlags)
      requires Valid()
      ensures fresh(c) && c.data == FlagsByte()
    {
      c := new IpFlags(Flags(data[1]) as bv8);
    }

    method SetFlags(val: IpFlags)
      requires Valid() && val.data as bv32 <= 7
      modifies data
      ensures data[..] == old(data[..])[1 := PutFlags(old(data[1]), val.data as bv32)]
      ensures FlagsByte() == val.data
    {
      WidenNarrow(val.data);
      PutFlagsEffect(data[1], val.data as bv32);
      data[1] := PutFlags(data[1], val.data as bv32);
    }

    method SetFragOff(val: bv32)
      requires Valid() && val <= 0x1FFF
      modifies data
      ensures data[..] == old(data[..])[1 := PutFragOff(old(data[1]), val)]
      ensures GetFragOff() == val
    {
      PutFragOffEffect(data[1], val);
      data[1] := PutFragOff(data[1], val);
    }

    method SetTtl(val: bv32)
      requires Valid() && val <= 0xFF
      modifies data
      ensures data[..] == old(data[..])[2 := PutTtl(old(data[2]), val)]
      ensures GetTtl() == val
    {
      PutTtlEffect(data[2], val);
      data[2] := PutTtl(data[2], val);
    }

    method SetProtocol(val: bv32)
      requires Valid() && val <= 0xFF
      modifies data
      ensures data[..] == old(data[..])[2 := PutProtocol(old(data[2]), val)]
      ensures GetProtocol() == val
    {
      PutProtocolEffect(data[2], val);
      data[2] := PutProtocol(data[2], val);
    }

    method SetCheck(val: bv32)
      requires Valid() && val <= 0xFFFF
      modifies data
      ensures data[..] == old(data[..])[2 := PutCheck(old(data[2]), val)]
      ensures GetCheck() == val
    {
      PutCheckEffect(data[2], val);
      data[2] := PutCheck(data[2], val);
    }

    method SetSaddr(val: bv32)
      requires Valid()
      modifies data
      ensures data[..] == old(data[..])[3 := val]
      ensures GetSaddr() == val
    {
      data[3] := val;
    }

    method SetDaddr(val: bv32)
      requires Valid()
      modifies data
      ensures data[..] == old(data[..])[4 := val]
      ensures GetDaddr() == val
    {
      data[4] := val;
    }

    method SetOptions(val: bv32)
      requires Valid() && val <= 0xFF_FFFF
      modifies data
      ensures data[..] == old(data[..])[5 := PutOptions(old(data[5]), val)]
      ensures GetOptions() == val
    {
      PutOptionsEffect(data[5], val);
      data[5] := PutOptions(data[5], val);
    }

    method SetPadding(val: bv32)
      requires Valid() && val <= 0xFF
      modifies data
      ensures data[..] == old(data[..])[5 := PutPadding(old(data[5]), val)]
      ensures GetPadding() == val
    {
      PutPaddingEffect(data[5], val);
      data[5] := PutPadding(data[5], val);
    }
  }
}
