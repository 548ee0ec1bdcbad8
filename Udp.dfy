/** The User Datagram Header of RFC 768 (Format section): two 32-bit words,
  * fields numbered from the most significant bit of each word. */
module Udp {
  /** Source: offset 0, width 16 in word 0; shift 32 - 16 - 0 = 16, mask (1 << 16) - 1. */
  function Source(w: bv32): (r: bv32)
    ensures r <= 0xFFFF
  {
    (w >> 16) & 0xFFFF
  }

  function PutSource(w: bv32, val: bv32): (r: bv32)
    ensures Source(r) == val & 0xFFFF
  {
    (w & !(0xFFFF << 16)) | (val << 16)
  }

  /** Dest: offset 16, width 16 in word 0; shift 32 - 16 - 16 = 0, mask (1 << 16) - 1. */
  function Dest(w: bv32): (r: bv32)
    ensures r <= 0xFFFF
  {
    (w >> 0) & 0xFFFF
  }

  function PutDest(w: bv32, val: bv32): (r: bv32)
    ensures Dest(r) == val & 0xFFFF
  {
    (w & !(0xFFFF << 0)) | (val << 0)
  }

  /** Len: offset 0, width 16 in word 1; shift 32 - 16 - 0 = 16, mask (1 << 16) - 1. */
  function Len(w: bv32): (r: bv32)
    ensures r <= 0xFFFF
  {
    (w >> 16) & 0xFFFF
  }

  function PutLen(w: bv32, val: bv32): (r: bv32)
    ensures Len(r) == val & 0xFFFF
  {
    (w & !(0xFFFF << 16)) | (val << 16)
  }

  /** Check: offset 16, width 16 in word 1; shift 32 - 16 - 16 = 0, mask (1 << 16) - 1. */
  function Check(w: bv32): (r: bv32)
    ensures r <= 0xFFFF
  {
    (w >> 0) & 0xFFFF
  }

  function PutCheck(w: bv32, val: bv32): (r: bv32)
    ensures Check(r) == val & 0xFFFF
  {
    (w & !(0xFFFF << 0)) | (val << 0)
  }

  /** Storing a value that fits in Source reads it back and leaves the other fields of the word alone. */
  lemma PutSourceEffect(w: bv32, val: bv32)
    requires val <= 0xFFFF
    ensures Source(PutSource(w, val)) == val
    ensures Dest(PutSource(w, val)) == Dest(w)
  {}

  /** Storing a value that fits in Dest reads it back and leaves the other fields of the word alone. */
  lemma PutDestEffect(w: bv32, val: bv32)
    requires val <= 0xFFFF
    ensures Dest(PutDest(w, val)) == val
    ensures Source(PutDest(w, val)) == Source(w)
  {}

  /** The fields of word 0 tile its 32 bits: their values determine the word. */
  lemma Word0Tiled(w: bv32, v: bv32)
    requires Source(w) == Source(v)
    requires Dest(w) == Dest(v)
    ensures w == v
  {}

  /** Storing a value that fits in Len reads it back and leaves the other fields of the word alone. */
  lemma PutLenEffect(w: bv32, val: bv32)
    requires val <= 0xFFFF
    ensures Len(PutLen(w, val)) == val
    ensures Check(PutLen(w, val)) == Check(w)
  {}

  /** Storing a value that fits in Check reads it back and leaves the other fields of the word alone. */
  lemma PutCheckEffect(w: bv32, val: bv32)
    requires val <= 0xFFFF
    ensures Check(PutCheck(w, val)) == val
    ensures Len(PutCheck(w, val)) == Len(w)
  {}

  /** The fields of word 1 tile its 32 bits: their values determine the word. */
  lemma Word1Tiled(w: bv32, v: bv32)
    requires Len(w) == Len(v)
    requires Check(w) == Check(v)
    ensures w == v
  {}

  /** User Datagram Header: two 32-bit words. */
  class UdpHeader {
    const data: array<bv32>

    predicate Valid()
    {
      data.Length == 2
    }

    /** `std::array<uint32_t, 2> m_data{}`: every word, hence every field, starts at zero. */
    constructor()
      ensures Valid() && fresh(data)
      ensures forall k :: 0 <= k < 2 ==> data[k] == 0
      ensures GetSource() == 0 && GetDest() == 0 && GetLen() == 0 && GetCheck() == 0
    {
      data := new bv32[2](_ => 0);
    }

    function GetSource(): (r: bv32)
      requires Valid()
      reads data
      ensures r <= 0xFFFF
    {
      Source(data[0])
    }

    function GetDest(): (r: bv32)
      requires Valid()
      reads data
      ensures r <= 0xFFFF
    {
      Dest(data[0])
    }

    function GetLen(): (r: bv32)
      requires Valid()
      reads data
      ensures r <= 0xFFFF
    {
      Len(data[1])
    }

    function GetCheck(): (r: bv32)
      requires Valid()
      reads data
      ensures r <= 0xFFFF
    {
      Check(data[1])
    }

    method SetSource(val: bv32)
      requires Valid() && val <= 0xFFFF
      modifies data
      ensures data[..] == old(data[..])[0 := PutSource(old(data[0]), val)]
      ensures GetSource() == val
    {
      PutSourceEffect(data[0], val);
      data[0] := PutSource(data[0], val);
    }

    method SetDest(val: bv32)
      requires Valid() && val <= 0xFFFF
      modifies data
      ensures data[..] == old(data[..])[0 := PutDest(old(data[0]), val)]
      ensures GetDest() == val
    {
      PutDestEffect(data[0], val);
      data[0] := PutDest(data[0], val);
    }

    method SetLen(val: bv32)
      requires Valid() && val <= 0xFFFF
      modifies data
      ensures data[..] == old(data[..])[1 := PutLen(old(data[1]), val)]
      ensures GetLen() == val
    {
      PutLenEffect(data[1], val);
      data[1] := PutLen(data[1], val);
    }

    method SetCheck(val: bv32)
      requires Valid() && val <= 0xFFFF
      modifies data
      ensures data[..] == old(data[..])[1 := PutCheck(old(data[1]), val)]
      ensures GetCheck() == val
    {
      PutCheckEffect(data[1], val);
      data[1] := PutCheck(data[1], val);
    }
  }
}
