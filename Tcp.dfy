/** The TCP header of section 3.1 of RFC 793, with the CWR and ECE bits of
  * section 6.1 of RFC 3168: five 32-bit words, fields numbered from the most
  * significant bit of each word. */
module Tcp {
  /** Source: offset 0, width 16 in word 0; shift 32 - 16 - 0 = 16, mask (1 << 16) - 1. */
  function Source(w: bv32): (r: bv32)
    ensures r <= 0xFFFF
  {
    (w >> 16) & 0xFFFF
  }

  function PutSource(w: bv32, val: bv32): (r: bv32)
    ensures Source(r) == val & 0xFFFF
  {
    (w & !(0xFFFF << 16)) | (val << 16)
  }

  /** Dest: offset 16, width 16 in word 0; shift 32 - 16 - 16 = 0, mask (1 << 16) - 1. */
  function Dest(w: bv32): (r: bv32)
    ensures r <= 0xFFFF
  {
    (w >> 0) & 0xFFFF
  }

  function PutDest(w: bv32, val: bv32): (r: bv32)
    ensures Dest(r) == val & 0xFFFF
  {
    (w & !(0xFFFF << 0)) | (val << 0)
  }

  /** Doff: offset 0, width 4 in word 3; shift 32 - 4 - 0 = 28, mask (1 << 4) - 1. */
  function Doff(w: bv32): (r: bv32)
    ensures r <= 0xF
  {
    (w >> 28) & 0xF
  }

  function PutDoff(w: bv32, val: bv32): (r: bv32)
    ensures Doff(r) == val & 0xF
  {
    (w & !(0xF << 28)) | (val << 28)
  }

  /** Reserved: offset 4, width 4 in word 3; shift 32 - 4 - 4 = 24, mask (1 << 4) - 1. */
  function Reserved(w: bv32): (r: bv32)
    ensures r <= 0xF
  {
    (w >> 24) & 0xF
  }

  function PutReserved(w: bv32, val: bv32): (r: bv32)
    ensures Reserved(r) == val & 0xF
  {
    (w & !(0xF << 24)) | (val << 24)
  }

  /** Cwr: offset 8, width 1 in word 3; shift 32 - 1 - 8 = 23, mask (1 << 1) - 1. */
  function Cwr(w: bv32): (r: bv32)
    ensures r <= 1
  {
    (w >> 23) & 1
  }

  function PutCwr(w: bv32, val: bv32): (r: bv32)
    ensures Cwr(r) == val & 1
  {
    (w & !(1 << 23)) | (val << 23)
  }

  /** Ece: offset 9, width 1 in word 3; shift 32 - 1 - 9 = 22, mask (1 << 1) - 1. */
  function Ece(w: bv32): (r: bv32)
    ensures r <= 1
  {
    (w >> 22) & 1
  }

  function PutEce(w: bv32, val: bv32): (r: bv32)
    ensures Ece(r) == val & 1
  {
    (w & !(1 << 22)) | (val << 22)
  }

  /** Urg: offset 10, width 1 in word 3; shift 32 - 1 - 10 = 21, mask (1 << 1) - 1. */
  function Urg(w: bv32): (r: bv32)
    ensures r <= 1
  {
    (w >> 21) & 1
  }

  function PutUrg(w: bv32, val: bv32): (r: bv32)
    ensures Urg(r) == val & 1
  {
    (w & !(1 << 21)) | (val << 21)
  }

  /** Ack: offset 11, width 1 in word 3; shift 32 - 1 - 11 = 20, mask (1 << 1) - 1. */
  function Ack(w: bv32): (r: bv32)
    ensures r <= 1
  {
    (w >> 20) & 1
  }

  function PutAck(w: bv32, val: bv32): (r: bv32)
    ensures Ack(r) == val & 1
  {
    (w & !(1 << 20)) | (val << 20)
  }

  /** Psh: offset 12, width 1 in word 3; shift 32 - 1 - 12 = 19, mask (1 << 1) - 1. */
  function Psh(w: bv32): (r: bv32)
    ensures r <= 1
  {
    (w >> 19) & 1
  }

  function PutPsh(w: bv32, val: bv32): (r: bv32)
    ensures Psh(r) == val & 1
  {
    (w & !(1 << 19)) | (val << 19)
  }

  /** Rst: offset 13, width 1 in word 3; shift 32 - 1 - 13 = 18, mask (1 << 1) - 1. */
  function Rst(w: bv32): (r: bv32)
    ensures r <= 1
  {
    (w >> 18) & 1
  }

  function PutRst(w: bv32, val: bv32): (r: bv32)
    ensures Rst(r) == val & 1
  {
    (w & !(1 << 18)) | (val << 18)
  }

  /** Syn: offset 14, width 1 in word 3; shift 32 - 1 - 14 = 17, mask (1 << 1) - 1. */
  function Syn(w: bv32): (r: bv32)
    ensures r <= 1
  {
    (w >> 17) & 1
  }

  function PutSyn(w: bv32, val: bv32): (r: bv32)
    ensures Syn(r) == val & 1
  {
    (w & !(1 << 17)) | (val << 17)
  }

  /** Fin: offset 15, width 1 in word 3; shift 32 - 1 - 15 = 16, mask (1 << 1) - 1. */
  function Fin(w: bv32): (r: bv32)
    ensures r <= 1
  {
    (w >> 16) & 1
  }

  function PutFin(w: bv32, val: bv32): (r: bv32)
    ensures Fin(r) == val & 1
  {
    (w & !(1 << 16)) | (val << 16)
  }

  /** Window: offset 16, width 16 in word 3; shift 32 - 16 - 16 = 0, mask (1 << 16) - 1. */
  function Window(w: bv32): (r: bv32)
    ensures r <= 0xFFFF
  {
    (w >> 0) & 0xFFFF
  }

  function PutWindow(w: bv32, val: bv32): (r: bv32)
    ensures Window(r) == val & 0xFFFF
  {
    (w & !(0xFFFF << 0)) | (val << 0)
  }

  /** Check: offset 0, width 16 in word 4; shift 32 - 16 - 0 = 16, mask (1 << 16) - 1. */
  function Check(w: bv32): (r: bv32)
    ensures r <= 0xFFFF
  {
    (w >> 16) & 0xFFFF
  }

  function PutCheck(w: bv32, val: bv32): (r: bv32)
    ensures Check(r) == val & 0xFFFF
  {
    (w & !(0xFFFF << 16)) | (val << 16)
  }

  /** Urgent: offset 16, width 16 in word 4; shift 32 - 16 - 16 = 0, mask (1 << 16) - 1. */
  function Urgent(w: bv32): (r: bv32)
    ensures r <= 0xFFFF
  {
    (w >> 0) & 0xFFFF
  }

  function PutUrgent(w: bv32, val: bv32): (r: bv32)
    ensures Urgent(r) == val & 0xFFFF
  {
    (w & !(0xFFFF << 0)) | (val << 0)
  }

  /** Storing a value that fits in Source reads it back and leaves the other fields of the word alone. */
  lemma PutSourceEffect(w: bv32, val: bv32)
    requires val <= 0xFFFF
    ensures Source(PutSource(w, val)) == val
    ensures Dest(PutSource(w, val)) == Dest(w)
  {}

  /** Storing a value that fits in Dest reads it back and leaves the other fields of the word alone. */
  lemma PutDestEffect(w: bv32, val: bv32)
    requires val <= 0xFFFF
    ensures Dest(PutDest(w, val)) == val
    ensures Source(PutDest(w, val)) == Source(w)
  {}

  /** The fields of word 0 tile its 32 bits: their values determine the word. */
  lemma Word0Tiled(w: bv32, v: bv32)
    requires Source(w) == Source(v)
    requires Dest(w) == Dest(v)
    ensures w == v
  {}

  /** Storing a value that fits in Doff reads it back and leaves the other fields of the word alone. */
  lemma PutDoffEffect(w: bv32, val: bv32)
    requires val <= 0xF
    ensures Doff(PutDoff(w, val)) == val
    ensures Reserved(PutDoff(w, val)) == Reserved(w)
    ensures Cwr(PutDoff(w, val)) == Cwr(w)
    ensures Ece(PutDoff(w, val)) == Ece(w)
    ensures Urg(PutDoff(w, val)) == Urg(w)
    ensures Ack(PutDoff(w, val)) == Ack(w)
    ensures Psh(PutDoff(w, val)) == Psh(w)
    ensures Rst(PutDoff(w, val)) == Rst(w)
    ensures Syn(PutDoff(w, val)) == Syn(w)
    ensures Fin(PutDoff(w, val)) == Fin(w)
    ensures Window(PutDoff(w, val)) == Window(w)
  {}

  /** Storing a value that fits in Reserved reads it back and leaves the other fields of the word alone. */
  lemma PutReservedEffect(w: bv32, val: bv32)
    requires val <= 0xF
    ensures Reserved(PutReserved(w, val)) == val
    ensures Doff(PutReserved(w, val)) == Doff(w)
    ensures Cwr(PutReserved(w, val)) == Cwr(w)
    ensures Ece(PutReserved(w, val)) == Ece(w)
    ensures Urg(PutReserved(w, val)) == Urg(w)
    ensures Ack(PutReserved(w, val)) == Ack(w)
    ensures Psh(PutReserved(w, val)) == Psh(w)
    ensures Rst(PutReserved(w, val)) == Rst(w)
    ensures Syn(PutReserved(w, val)) == Syn(w)
    ensures Fin(PutReserved(w, val)) == Fin(w)
    ensures Window(PutReserved(w, val)) == Window(w)
  {}

  /** Storing a value that fits in Cwr reads it back and leaves the other fields of the word alone. */
  lemma PutCwrEffect(w: bv32, val: bv32)
    requires val <= 1
    ensures Cwr(PutCwr(w, val)) == val
    ensures Doff(PutCwr(w, val)) == Doff(w)
    ensures Reserved(PutCwr(w, val)) == Reserved(w)
    ensures Ece(PutCwr(w, val)) == Ece(w)
    ensures Urg(PutCwr(w, val)) == Urg(w)
    ensures Ack(PutCwr(w, val)) == Ack(w)
    ensures Psh(PutCwr(w, val)) == Psh(w)
    ensures Rst(PutCwr(w, val)) == Rst(w)
    ensures Syn(PutCwr(w, val)) == Syn(w)
    ensures Fin(PutCwr(w, val)) == Fin(w)
    ensures Window(PutCwr(w, val)) == Window(w)
  {}

  /** Storing a value that fits in Ece reads it back and leaves the other fields of the word alone. */
  lemma PutEceEffect(w: bv32, val: bv32)
    requires val <= 1
    ensures Ece(PutEce(w, val)) == val
    ensures Doff(PutEce(w, val)) == Doff(w)
    ensures Reserved(PutEce(w, val)) == Reserved(w)
    ensures Cwr(PutEce(w, val)) == Cwr(w)
    ensures Urg(PutEce(w, val)) == Urg(w)
    ensures Ack(PutEce(w, val)) == Ack(w)
    ensures Psh(PutEce(w, val)) == Psh(w)
    ensures Rst(PutEce(w, val)) == Rst(w)
    ensures Syn(PutEce(w, val)) == Syn(w)
    ensures Fin(PutEce(w, val)) == Fin(w)
    ensures Window(PutEce(w, val)) == Window(w)
  {}

  /** Storing a value that fits in Urg reads it back and leaves the other fields of the word alone. */
  lemma PutUrgEffect(w: bv32, val: bv32)
    requires val <= 1
    ensures Urg(PutUrg(w, val)) == val
    ensures Doff(PutUrg(w, val)) == Doff(w)
    ensures Reserved(PutUrg(w, val)) == Reserved(w)
    ensures Cwr(PutUrg(w, val)) == Cwr(w)
    ensures Ece(PutUrg(w, val)) == Ece(w)
    ensures Ack(PutUrg(w, val)) == Ack(w)
    ensures Psh(PutUrg(w, val)) == Psh(w)
    ensures Rst(PutUrg(w, val)) == Rst(w)
    ensures Syn(PutUrg(w, val)) == Syn(w)
    ensures Fin(PutUrg(w, val)) == Fin(w)
    ensures Window(PutUrg(w, val)) == Window(w)
  {}

  /** Storing a value that fits in Ack reads it back and leaves the other fields of the word alone. */
  lemma PutAckEffect(w: bv32, val: bv32)
    requires val <= 1
    ensures Ack(PutAck(w, val)) == val
    ensures Doff(PutAck(w, val)) == Doff(w)
    ensures Reserved(PutAck(w, val)) == Reserved(w)
    ensures Cwr(PutAck(w, val)) == Cwr(w)
    ensures Ece(PutAck(w, val)) == Ece(w)
    ensures Urg(PutAck(w, val)) == Urg(w)
    ensures Psh(PutAck(w, val)) == Psh(w)
    ensures Rst(PutAck(w, val)) == Rst(w)
    ensures Syn(PutAck(w, val)) == Syn(w)
    ensures Fin(PutAck(w, val)) == Fin(w)
    ensures Window(PutAck(w, val)) == Window(w)
  {}

  /** Storing a value that fits in Psh reads it back and leaves the other fields of the word alone. */
  lemma PutPshEffect(w: bv32, val: bv32)
    requires val <= 1
    ensures Psh(PutPsh(w, val)) == val
    ensures Doff(PutPsh(w, val)) == Doff(w)
    ensures Reserved(PutPsh(w, val)) == Reserved(w)
    ensures Cwr(PutPsh(w, val)) == Cwr(w)
    ensures Ece(PutPsh(w, val)) == Ece(w)
    ensures Urg(PutPsh(w, val)) == Urg(w)
    ensures Ack(PutPsh(w, val)) == Ack(w)
    ensures Rst(PutPsh(w, val)) == Rst(w)
    ensures Syn(PutPsh(w, val)) == Syn(w)
    ensures Fin(PutPsh(w, val)) == Fin(w)
    ensures Window(PutPsh(w, val)) == Window(w)
  {}

  /** Storing a value that fits in Rst reads it back and leaves the other fields of the word alone. */
  lemma PutRstEffect(w: bv32, val: bv32)
    requires val <= 1
    ensures Rst(PutRst(w, val)) == val
    ensures Doff(PutRst(w, val)) == Doff(w)
    ensures Reserved(PutRst(w, val)) == Reserved(w)
    ensures Cwr(PutRst(w, val)) == Cwr(w)
    ensures Ece(PutRst(w, val)) == Ece(w)
    ensures Urg(PutRst(w, val)) == Urg(w)
    ensures Ack(PutRst(w, val)) == Ack(w)
    ensures Psh(PutRst(w, val)) == Psh(w)
    ensures Syn(PutRst(w, val)) == Syn(w)
    ensures Fin(PutRst(w, val)) == Fin(w)
    ensures Window(PutRst(w, val)) == Window(w)
  {}

  /** Storing a value that fits in Syn reads it back and leaves the other fields of the word alone. */
  lemma PutSynEffect(w: bv32, val: bv32)
    requires val <= 1
    ensures Syn(PutSyn(w, val)) == val
    ensures Doff(PutSyn(w, val)) == Doff(w)
    ensures Reserved(PutSyn(w, val)) == Reserved(w)
    ensures Cwr(PutSyn(w, val)) == Cwr(w)
    ensures Ece(PutSyn(w, val)) == Ece(w)
    ensures Urg(PutSyn(w, val)) == Urg(w)
    ensures Ack(PutSyn(w, val)) == Ack(w)
    ensures Psh(PutSyn(w, val)) == Psh(w)
    ensures Rst(PutSyn(w, val)) == Rst(w)
    ensures Fin(PutSyn(w, val)) == Fin(w)
    ensures Window(PutSyn(w, val)) == Window(w)
  {}

  /** Storing a value that fits in Fin reads it back and leaves the other fields of the word alone. */
  lemma PutFinEffect(w: bv32, val: bv32)
    requires val <= 1
    ensures Fin(PutFin(w, val)) == val
    ensures Doff(PutFin(w, val)) == Doff(w)
    ensures Reserved(PutFin(w, val)) == Reserved(w)
    ensures Cwr(PutFin(w, val)) == Cwr(w)
    ensures Ece(PutFin(w, val)) == Ece(w)
    ensures Urg(PutFin(w, val)) == Urg(w)
    ensures Ack(PutFin(w, val)) == Ack(w)
    ensures Psh(PutFin(w, val)) == Psh(w)
    ensures Rst(PutFin(w, val)) == Rst(w)
    ensures Syn(PutFin(w, val)) == Syn(w)
    ensures Window(PutFin(w, val)) == Window(w)
  {}

  /** Storing a value that fits in Window reads it back and leaves the other fields of the word alone. */
  lemma PutWindowEffect(w: bv32, val: bv32)
    requires val <= 0xFFFF
    ensures Window(PutWindow(w, val)) == val
    ensures Doff(PutWindow(w, val)) == Doff(w)
    ensures Reserved(PutWindow(w, val)) == Reserved(w)
    ensures Cwr(PutWindow(w, val)) == Cwr(w)
    ensures Ece(PutWindow(w, val)) == Ece(w)
    ensures Urg(PutWindow(w, val)) == Urg(w)
    ensures Ack(PutWindow(w, val)) == Ack(w)
    ensures Psh(PutWindow(w, val)) == Psh(w)
    ensures Rst(PutWindow(w, val)) == Rst(w)
    ensures Syn(PutWindow(w, val)) == Syn(w)
    ensures Fin(PutWindow(w, val)) == Fin(w)
  {}

  /** The fields of word 3 tile its 32 bits: their values determine the word. */
  lemma Word3Tiled(w: bv32, v: bv32)
    requires Doff(w) == Doff(v)
    requires Reserved(w) == Reserved(v)
    requires Cwr(w) == Cwr(v)
    requires Ece(w) == Ece(v)
    requires Urg(w) == Urg(v)
    requires Ack(w) == Ack(v)
    requires Psh(w) == Psh(v)
    requires Rst(w) == Rst(v)
    requires Syn(w) == Syn(v)
    requires Fin(w) == Fin(v)
    requires Window(w) == Window(v)
    ensures w == v
  {}

  /** Storing a value that fits in Check reads it back and leaves the other fields of the word alone. */
  lemma PutCheckEffect(w: bv32, val: bv32)
    requires val <= 0xFFFF
    ensures Check(PutCheck(w, val)) == val
    ensures Urgent(PutCheck(w, val)) == Urgent(w)
  {}

  /** Storing a value that fits in Urgent reads it back and leaves the other fields of the word alone. */
  lemma PutUrgentEffect(w: bv32, val: bv32)
    requires val <= 0xFFFF
    ensures Urgent(PutUrgent(w, val)) == val
    ensures Check(PutUrgent(w, val)) == Check(w)
  {}

  /** The fields of word 4 tile its 32 bits: their values determine the word. */
  lemma Word4Tiled(w: bv32, v: bv32)
    requires Check(w) == Check(v)
    requires Urgent(w) == Urgent(v)
    ensures w == v
  {}

  /** TCP header: five 32-bit words. */
  class TcpHeader {
    const data: array<bv32>

    predicate Valid()
    {
      data.Length == 5
    }

    /** `std::array<uint32_t, 5> m_data{}`: every word, hence every field, starts at zero. */
    constructor()
      ensures Valid() && fresh(data)
      ensures forall k :: 0 <= k < 5 ==> data[k] == 0
      ensures GetSource() == 0 && GetDest() == 0 && GetSeq() == 0 && GetAckSeq() == 0 && GetDoff() == 0 && GetReserved() == 0 && GetCwr() == 0 && GetEce() == 0 && GetUrg() == 0 && GetAck() == 0 && GetPsh() == 0 && GetRst() == 0 && GetSyn() == 0 && GetFin() == 0 && GetWindow() == 0 && GetCheck() == 0 && GetUrgent() == 0
    {
      data := new bv32[5](_ => 0);
    }

    function GetSource(): (r: bv32)
      requires Valid()
      reads data
      ensures r <= 0xFFFF
    {
      Source(data[0])
    }

    function GetDest(): (r: bv32)
      requires Valid()
      reads data
      ensures r <= 0xFFFF
    {
      Dest(data[0])
    }

    function GetSeq(): (r: bv32)
      requires Valid()
      reads data
      ensures r == data[1]
    {
      data[1]
    }

    function GetAckSeq(): (r: bv32)
      requires Valid()
      reads data
      ensures r == data[2]
    {
      data[2]
    }

    function GetDoff(): (r: bv32)
      requires Valid()
      reads data
      ensures r <= 0xF
    {
      Doff(data[3])
    }

    function GetReserved(): (r: bv32)
      requires Valid()
      reads data
      ensures r <= 0xF
    {
      Reserved(data[3])
    }

    function GetCwr(): (r: bv32)
      requires Valid()
      reads data
      ensures r <= 1
    {
      Cwr(data[3])
    }

    function GetEce(): (r: bv32)
      requires Valid()
      reads data
      ensures r <= 1
    {
      Ece(data[3])
    }

    function GetUrg(): (r: bv32)
      requires Valid()
      reads data
      ensures r <= 1
    {
      Urg(data[3])
    }

    function GetAck(): (r: bv32)
      requires Valid()
      reads data
      ensures r <= 1
    {
      Ack(data[3])
    }

    function GetPsh(): (r: bv32)
      requires Valid()
      reads data
      ensures r <= 1
    {
      Psh(data[3])
    }

    function GetRst(): (r: bv32)
      requires Valid()
      reads data
      ensures r <= 1
    {
      Rst(data[3])
    }

    function GetSyn(): (r: bv32)
      requires Valid()
      reads data
      ensures r <= 1
    {
      Syn(data[3])
    }

    function GetFin(): (r: bv32)
      requires Valid()
      reads data
      ensures r <= 1
    {
      Fin(data[3])
    }

    function GetWindow(): (r: bv32)
      requires Valid()
      reads data
      ensures r <= 0xFFFF
    {
      Window(data[3])
    }

    function GetCheck(): (r: bv32)
      requires Valid()
      reads data
      ensures r <= 0xFFFF
    {
      Check(data[4])
    }

    function GetUrgent(): (r: bv32)
      requires Valid()
      reads data
      ensures r <= 0xFFFF
    {
      Urgent(data[4])
    }

    method SetSource(val: bv32)
      requires Valid() && val <= 0xFFFF
      modifies data
      ensures data[..] == old(data[..])[0 := PutSource(old(data[0]), val)]
      ensures GetSource() == val
    {
      PutSourceEffect(data[0], val);
      data[0] := PutSource(data[0], val);
    }

    method SetDest(val: bv32)
      requires Valid() && val <= 0xFFFF
      modifies data
      ensures data[..] == old(data[..])[0 := PutDest(old(data[0]), val)]
      ensures GetDest() == val
    {
      PutDestEffect(data[0], val);
      data[0] := PutDest(data[0], val);
    }

    method SetSeq(val: bv32)
      requires Valid()
      modifies data
      ensures data[..] == old(data[..])[1 := val]
      ensures GetSeq() == val
    {
      data[1] := val;
    }

    method SetAckSeq(val: bv32)
      requires Valid()
      modifies data
      ensures data[..] == old(data[..])[2 := val]
      ensures GetAckSeq() == val
    {
      data[2] := val;
    }

    method SetDoff(val: bv32)
      requires Valid() && val <= 0xF
      modifies data
      ensures data[..] == old(data[..])[3 := PutDoff(old(data[3]), val)]
      ensures GetDoff() == val
    {
      PutDoffEffect(data[3], val);
      data[3] := PutDoff(data[3], val);
    }

    method SetReserved(val: bv32)
      requires Valid() && val <= 0xF
      modifies data
      ensures data[..] == old(data[..])[3 := PutReserved(old(data[3]), val)]
      ensures GetReserved() == val
    {
      PutReservedEffect(data[3], val);
      data[3] := PutReserved(data[3], val);
    }

    method SetCwr(val: bv32)
      requires Valid() && val <= 1
      modifies data
      ensures data[..] == old(data[..])[3 := PutCwr(old(data[3]), val)]
      ensures GetCwr() == val
    {
      PutCwrEffect(data[3], val);
      data[3] := PutCwr(data[3], val);
    }

    method SetEce(val: bv32)
      requires Valid() && val <= 1
      modifies data
      ensures data[..] == old(data[..])[3 := PutEce(old(data[3]), val)]
      ensures GetEce() == val
    {
      PutEceEffect(data[3], val);
      data[3] := PutEce(data[3], val);
    }

    method SetUrg(val: bv32)
      requires Valid() && val <= 1
      modifies data
      ensures data[..] == old(data[..])[3 := PutUrg(old(data[3]), val)]
      ensures GetUrg() == val
    {
      PutUrgEffect(data[3], val);
      data[3] := PutUrg(data[3], val);
    }

    method SetAck(val: bv32)
      requires Valid() && val <= 1
      modifies data
      ensures data[..] == old(data[..])[3 := PutAck(old(data[3]), val)]
      ensures GetAck() == val
    {
      PutAckEffect(data[3], val);
      data[3] := PutAck(data[3], val);
    }

    method SetPsh(val: bv32)
      requires Valid() && val <= 1
      modifies data
      ensures data[..] == old(data[..])[3 := PutPsh(old(data[3]), val)]
      ensures GetPsh() == val
    {
      PutPshEffect(data[3], val);
      data[3] := PutPsh(data[3], val);
    }

    method SetRst(val: bv32)
      requires Valid() && val <= 1
      modifies data
      ensures data[..] == old(data[..])[3 := PutRst(old(data[3]), val)]
      ensures GetRst() == val
    {
      PutRstEffect(data[3], val);
      data[3] := PutRst(data[3], val);
    }

    method SetSyn(val: bv32)
      requires Valid() && val <= 1
      modifies data
      ensures data[..] == old(data[..])[3 := PutSyn(old(data[3]), val)]
      ensures GetSyn() == val
    {
      PutSynEffect(data[3], val);
      data[3] := PutSyn(data[3], val);
    }

    method SetFin(val: bv32)
      requires Valid() && val <= 1
      modifies data
      ensures data[..] == old(data[..])[3 := PutFin(old(data[3]), val)]
      ensures GetFin() == val
    {
      PutFinEffect(data[3], val);
      data[3] := PutFin(data[3], val);
    }

    method SetWindow(val: bv32)
      requires Valid() && val <= 0xFFFF
      modifies data
      ensures data[..] == old(data[..])[3 := PutWindow(old(data[3]), val)]
      ensures GetWindow() == val
    {
      PutWindowEffect(data[3], val);
      data[3] := PutWindow(data[3], val);
    }

    method SetCheck(val: bv32)
      requires Valid() && val <= 0xFFFF
      modifies data
      ensures data[..] == old(data[..])[4 := PutCheck(old(data[4]), val)]
      ensures GetCheck() == val
    {
      PutCheckEffect(data[4], val);
      data[4] := PutCheck(data[4], val);
    }

    method SetUrgent(val: bv32)
      requires Valid() && val <= 0xFFFF
      modifies data
      ensures data[..] == old(data[..])[4 := PutUrgent(old(data[4]), val)]
      ensures GetUrgent() == val
    {
      PutUrgentEffect(data[4], val);
      data[4] := PutUrgent(data[4], val);
    }
  }
}
