/** The packet builders as they run: fields written one by one into a zeroed buffer, the checksum last. */
module PacketBuffers {
  import opened Wrappers
  import opened Words
  import opened Inet
  import opened Checksum
  import opened TcpPcb
  import opened Packets

  method CopyInto(buf: array<u8>, at: nat, bytes: seq<u8>)
    requires at + |bytes| <= buf.Length
    modifies buf
    ensures forall i :: 0 <= i < buf.Length ==> buf[i] == if at <= i < at + |bytes| then bytes[i - at] else old(buf[i])
  {
    var k := 0;
    while k < |bytes|
      invariant 0 <= k <= |bytes|
      invariant forall i :: 0 <= i < buf.Length ==> buf[i] == if at <= i < at + k then bytes[i - at] else old(buf[i])
    {
      buf[at + k] := bytes[k];
      k := k + 1;
    }
  }

  /** Fills the zeroed checksum field between `a` and `b`. */
  method PutSum(buf: array<u8>, n: nat, sum: u16, ghost a: seq<u8>, ghost b: seq<u8>, at: nat)
    requires n <= buf.Length && |a| == at && buf[..n] == WithField(a, 0, b)
    modifies buf
    ensures buf[..n] == WithField(a, sum, b)
  {
    ghost var was := buf[..n];
    CopyInto(buf, at, LeBytes(sum));
    FieldWritten(a, b, was, sum, buf[..n]);
  }

  /** The fields of an IP header, all but the checksum. */
  method PutIpHeader(buf: array<u8>, total: u16, id: u16, protocol: u8, src: IpAddr, dst: IpAddr)
    requires buf.Length >= IP_HDR_SIZE && forall i :: 0 <= i < buf.Length ==> buf[i] == 0
    modifies buf
    ensures buf[..20] == WithField(IpFront(total, id, protocol), 0, IpBack(src, dst))
  {
    buf[0] := 0x45;
    buf[1] := 0;
    CopyInto(buf, 2, Be16(total));
    CopyInto(buf, 4, Be16(id));
    CopyInto(buf, 6, Be16(0));
    buf[8] := 255;
    buf[9] := protocol;
    CopyInto(buf, 12, AddrBytes(src));
    CopyInto(buf, 16, AddrBytes(dst));
    ghost var front, back := IpFront(total, id, protocol), IpBack(src, dst);
    assert buf[..10] == front;
    assert buf[10..12] == LeBytes(0);
    assert buf[12..20] == back;
    assert buf[..20] == buf[..10] + buf[10..12] + buf[12..20];
  }

  /** build_packet */
  method BuildPacket(protocol: u8, data: seq<u8>, src: IpAddr, dst: IpAddr, id: u16) returns (r: Result<seq<u8>>)
    ensures r == IpBytes(protocol, data, src, dst, id)
  {
    var total := IP_HDR_SIZE + |data|;
    if total > 0xffff {
      return Err;
    }
    var buf := new u8[total](_ => 0);
    PutIpHeader(buf, total, id, protocol, src, dst);
    var sum := Cksum16(buf[..IP_HDR_SIZE], 0);
    PutSum(buf, IP_HDR_SIZE, sum, IpFront(total, id, protocol), IpBack(src, dst), 10);
    ghost var head := buf[..IP_HDR_SIZE];
    CopyInto(buf, IP_HDR_SIZE, data);
    assert buf[..] == head + data;
    return Ok(buf[..]);
  }

  /** The pseudo header of TCP and UDP. */
  method BuildPseudo(src: IpAddr, dst: IpAddr, protocol: u8, len: u16) returns (r: seq<u8>)
    ensures r == Pseudo(src, dst, protocol, len)
  {
    var buf := new u8[12](_ => 0);
    CopyInto(buf, 0, AddrBytes(src));
    CopyInto(buf, 4, AddrBytes(dst));
    buf[9] := protocol;
    CopyInto(buf, 10, Be16(len));
    assert len % 0x1_0000 == len;
    assert buf[..] == buf[..4] + buf[4..8] + buf[8..10] + buf[10..];
    return buf[..];
  }

  /** The initial value for the checksum of a segment of length `len`. */
  method StartSum(src: IpAddr, dst: IpAddr, protocol: u8, len: nat) returns (init: u16)
    ensures init == PseudoSum(src, dst, protocol, len)
  {
    var pseudo := BuildPseudo(src, dst, protocol, len % 0x1_0000);
    var partial := Cksum16(pseudo, 0);
    assert pseudo == Pseudo(src, dst, protocol, len);
    return Complement(partial);
  }

  /** The fields of a TCP header, all but the checksum, and the text. */
  method PutTcp(buf: array<u8>, src: u16, dst: u16, seg: Segment)
    requires buf.Length == TCP_HDR_SIZE + |seg.data| && forall i :: 0 <= i < buf.Length ==> buf[i] == 0
    modifies buf
    ensures buf[..] == WithField(TcpFront(src, dst, seg), 0, TcpBack(seg))
  {
    CopyInto(buf, 0, Be16(src));
    CopyInto(buf, 2, Be16(dst));
    CopyInto(buf, 4, Be32(seg.sn));
    CopyInto(buf, 8, Be32(seg.ack));
    buf[12] := 0x50;
    buf[13] := FlagByte(seg.flg);
    CopyInto(buf, 14, Be16(seg.wnd));
    CopyInto(buf, TCP_HDR_SIZE, seg.data);
    assert buf[..16] == TcpFront(src, dst, seg);
    assert buf[16..18] == LeBytes(0);
    assert buf[18..] == TcpBack(seg);
    assert buf[..] == buf[..16] + buf[16..18] + buf[18..];
  }

  /** output_segment up to the call of the IP layer. */
  method OutputSegment(src: Endpoint, dst: Endpoint, seg: Segment) returns (r: seq<u8>)
    ensures r == TcpBytes(src, dst, seg)
  {
    var total := TCP_HDR_SIZE + |seg.data|;
    var buf := new u8[total](_ => 0);
    PutTcp(buf, src.port, dst.port, seg);
    var init := StartSum(src.addr, dst.addr, PROTOCOL_TCP, total);
    var sum := Cksum16(buf[..], init);
    assert buf[..total] == buf[..];
    PutSum(buf, total, sum, TcpFront(src.port, dst.port, seg), TcpBack(seg), 16);
    assert buf[..total] == buf[..];
    return buf[..];
  }

  method PutUdp(buf: array<u8>, src: u16, dst: u16, data: seq<u8>)
    requires buf.Length == UDP_HDR_SIZE + |data| <= 0xffff && forall i :: 0 <= i < buf.Length ==> buf[i] == 0
    modifies buf
    ensures buf[..] == UdpWith(src, dst, 0, data)
  {
    CopyInto(buf, 0, Be16(src));
    CopyInto(buf, 2, Be16(dst));
    CopyInto(buf, 4, Be16(buf.Length));
    CopyInto(buf, UDP_HDR_SIZE, data);
    assert buf[..6] == UdpFront(src, dst, buf.Length);
    assert buf[6..8] == LeBytes(0);
    assert buf[8..] == data;
    assert buf[..] == buf[..6] + buf[6..8] + buf[8..];
  }

  /** UDP output up to the call of the IP layer. */
  method OutputDatagram(src: Endpoint, dst: Endpoint, data: seq<u8>) returns (r: Result<seq<u8>>)
    ensures r == UdpBytes(src, dst, data)
  {
    var total := UDP_HDR_SIZE + |data|;
    if total > 0xffff {
      return Err;
    }
    var buf := new u8[total](_ => 0);
    PutUdp(buf, src.port, dst.port, data);
    var init := StartSum(src.addr, dst.addr, PROTOCOL_UDP, total);
    var sum := Cksum16(buf[..], init);
    sum := if sum == 0 then 0xffff else sum;
    assert buf[..total] == buf[..];
    PutSum(buf, total, sum, UdpFront(src.port, dst.port, total), data, 6);
    assert buf[..total] == buf[..];
    return Ok(buf[..]);
  }
}
