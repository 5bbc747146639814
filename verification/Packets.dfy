/** The packet builders and parsers of src/ip.rs, src/tcp.rs and src/udp.rs. */
module Packets {
  import opened Wrappers
  import opened Words
  import opened Inet
  import opened Checksum
  import opened TcpPcb

  const IP_HDR_SIZE := 20
  const TCP_HDR_SIZE := 20
  const UDP_HDR_SIZE := 8
  const PROTOCOL_TCP: u8 := 6
  const PROTOCOL_UDP: u8 := 17

  // ---------------------------------------------------------------- big-endian fields

  function Be16(w: u16): (s: seq<u8>)
    ensures |s| == 2
  {
    [w / 0x100, w % 0x100]
  }

  function Read16(s: seq<u8>, k: nat): u16
    requires k + 2 <= |s|
  {
    s[k] as int * 0x100 + s[k + 1] as int
  }

  function Be32(w: u32): (s: seq<u8>)
    ensures |s| == 4
  {
    Be16(w / 0x1_0000) + Be16(w % 0x1_0000)
  }

  function Read32(s: seq<u8>, k: nat): u32
    requires k + 4 <= |s|
  {
    0x1_0000 * Read16(s, k) + Read16(s, k + 2)
  }

  function AddrBytes(a: IpAddr): (s: seq<u8>)
    ensures |s| == 4
  {
    [a.b0, a.b1, a.b2, a.b3]
  }

  function ReadAddr(s: seq<u8>, k: nat): IpAddr
    requires k + 4 <= |s|
  {
    IpAddr(s[k], s[k + 1], s[k + 2], s[k + 3])
  }

  function Bit(b: bool): int {
    if b then 1 else 0
  }

  /** The flag byte of a TCP header, and `flag_isset` for each flag. */
  function FlagByte(f: Flags): u8 {
    Bit(f.fin) + 2 * (Bit(f.syn) + 2 * (Bit(f.rst) + 2 * (Bit(f.psh) + 2 * (Bit(f.ack) + 2 * Bit(f.urg)))))
  }

  function ReadFlags(b: u8): Flags {
    Flags(b % 2 == 1, b / 2 % 2 == 1, b / 4 % 2 == 1, b / 8 % 2 == 1, b / 16 % 2 == 1, b / 32 % 2 == 1)
  }

  lemma FlagsRoundTrip(f: Flags)
    ensures ReadFlags(FlagByte(f)) == f
  {
    var r4 := Bit(f.ack) + 2 * Bit(f.urg);
    var r3 := Bit(f.psh) + 2 * r4;
    var r2 := Bit(f.rst) + 2 * r3;
    var r1 := Bit(f.syn) + 2 * r2;
    assert FlagByte(f) == Bit(f.fin) + 2 * r1;
    assert FlagByte(f) / 2 == r1 && FlagByte(f) / 4 == r2 && FlagByte(f) / 8 == r3 && FlagByte(f) / 16 == r4;
  }

  // ---------------------------------------------------------------- IP

  function IpFront(total: u16, id: u16, protocol: u8): (s: seq<u8>)
    ensures |s| == 10
  {
    [0x45, 0] + Be16(total) + Be16(id) + [0, 0, 255, protocol]
  }

  function IpBack(src: IpAddr, dst: IpAddr): (s: seq<u8>)
    ensures |s| == 8
  {
    AddrBytes(src) + AddrBytes(dst)
  }

  function IpHeader(total: u16, id: u16, protocol: u8, src: IpAddr, dst: IpAddr): (s: seq<u8>)
    ensures |s| == IP_HDR_SIZE
  {
    Sealed(IpFront(total, id, protocol), IpBack(src, dst), 0)
  }

  /** What build_packet returns. */
  function IpBytes(protocol: u8, data: seq<u8>, src: IpAddr, dst: IpAddr, id: u16): Result<seq<u8>> {
    var total := IP_HDR_SIZE + |data|;
    if total > 0xffff then Err else Ok(IpHeader(total, id, protocol, src, dst) + data)
  }

  /** What `input` does with a frame: drop it, panic on a slice that ends before it starts, or hand on the payload. */
  datatype IpOutcome = IpDropped | IpPanics | Handed(protocol: u8, src: IpAddr, dst: IpAddr, payload: seq<u8>)

  function IpInput(data: seq<u8>, unicast: IpAddr, broadcast: IpAddr): IpOutcome {
    if |data| < IP_HDR_SIZE || data[0] / 16 != 4 then IpDropped
    else
      var hlen, total, offset := data[0] % 16 * 4, Read16(data, 2), Read16(data, 6);
      var dst := ReadAddr(data, 16);
      if |data| < hlen || |data| < total || Cksum(data[..hlen], 0) != 0 then IpDropped
      else if offset / 0x2000 % 2 != 0 || offset % 0x2000 != 0 then IpDropped
      else if dst != unicast && dst != broadcast && dst != BROADCAST then IpDropped
      else if total < hlen then IpPanics
      else Handed(data[9], ReadAddr(data, 12), dst, data[hlen..total])
  }

  // ---------------------------------------------------------------- TCP and UDP

  /** The pseudo header; the length is cut to 16 bits. */
  function Pseudo(src: IpAddr, dst: IpAddr, protocol: u8, len: nat): (s: seq<u8>)
    ensures |s| == 12
  {
    AddrBytes(src) + AddrBytes(dst) + [0, protocol] + Be16(len % 0x1_0000)
  }

  /** The initial value the checksum of a segment starts from. */
  function PseudoSum(src: IpAddr, dst: IpAddr, protocol: u8, len: nat): u16 {
    Complement(Cksum(Pseudo(src, dst, protocol, len), 0))
  }

  function TcpFront(src: u16, dst: u16, seg: Segment): (s: seq<u8>)
    ensures |s| == 16
  {
    Be16(src) + Be16(dst) + Be32(seg.sn) + Be32(seg.ack) + [0x50, FlagByte(seg.flg)] + Be16(seg.wnd)
  }

  /** The urgent pointer, which stays zero, and the text. */
  function TcpBack(seg: Segment): (s: seq<u8>)
    ensures |s| == 2 + |seg.data| && s[2..] == seg.data
  {
    [0, 0] + seg.data
  }

  function TcpInit(src: IpAddr, dst: IpAddr, len: nat): u16 {
    PseudoSum(src, dst, PROTOCOL_TCP, len)
  }

  /** What output_segment hands to the IP layer. */
  function TcpBytes(src: Endpoint, dst: Endpoint, seg: Segment): (s: seq<u8>)
    ensures |s| == TCP_HDR_SIZE + |seg.data|
  {
    Sealed(TcpFront(src.port, dst.port, seg), TcpBack(seg),
           TcpInit(src.addr, dst.addr, TCP_HDR_SIZE + |seg.data|))
  }

  datatype TcpOutcome = TcpDropped | TcpPanics | Arrived(local: Endpoint, remote: Endpoint, seg: Segment)

  function TcpInput(data: Payload, src: IpAddr, dst: IpAddr, broadcast: IpAddr): TcpOutcome {
    if |data| < TCP_HDR_SIZE || Cksum(data, TcpInit(src, dst, |data|)) != 0 then TcpDropped
    else if src == BROADCAST || src == broadcast || dst == BROADCAST || dst == broadcast then TcpDropped
    else
      var hlen := data[12] / 16 * 4;
      if |data| < hlen then TcpPanics
      else
        var seg := Segment(Read32(data, 4), Read32(data, 8), ReadFlags(data[13]), Read16(data, 14), data[hlen..]);
        Arrived(Endpoint(dst, Read16(data, 2)), Endpoint(src, Read16(data, 0)), seg)
  }

  function UdpFront(src: u16, dst: u16, total: u16): (s: seq<u8>)
    ensures |s| == 6
  {
    Be16(src) + Be16(dst) + Be16(total)
  }

  /** A checksum of zero goes out as 0xffff (RFC 768). */
  function UdpSum(c: u16): u16 {
    if c == 0 then 0xffff else c
  }

  /** A UDP header with checksum field `c`, and its data. */
  function UdpWith(src: u16, dst: u16, c: u16, data: seq<u8>): (s: seq<u8>)
    requires UDP_HDR_SIZE + |data| <= 0xffff
    ensures |s| == UDP_HDR_SIZE + |data|
  {
    WithField(UdpFront(src, dst, UDP_HDR_SIZE + |data|), c, data)
  }

  function UdpBytes(src: Endpoint, dst: Endpoint, data: seq<u8>): Result<seq<u8>> {
    if UDP_HDR_SIZE + |data| > 0xffff then Err
    else
      var init := PseudoSum(src.addr, dst.addr, PROTOCOL_UDP, UDP_HDR_SIZE + |data|);
      Ok(UdpWith(src.port, dst.port, UdpSum(Cksum(UdpWith(src.port, dst.port, 0, data), init)), data))
  }

  datatype UdpOutcome = UdpDropped | Datagram(dst: Endpoint, src: Endpoint, data: seq<u8>)

  /** The checks of UDP `input`; a checksum of zero means that there is none. */
  function UdpInput(data: seq<u8>, src: IpAddr, dst: IpAddr): UdpOutcome {
    if |data| < UDP_HDR_SIZE || Read16(data, 4) != |data| then UdpDropped
    else if Read16(data, 6) != 0 && Cksum(data, PseudoSum(src, dst, PROTOCOL_UDP, |data|)) != 0 then UdpDropped
    else Datagram(Endpoint(dst, Read16(data, 2)), Endpoint(src, Read16(data, 0)), data[UDP_HDR_SIZE..])
  }

  // ---------------------------------------------------------------- round trips

  /** The header of a built packet checks and reads back. */
  lemma IpHeaderReads(total: u16, id: u16, protocol: u8, src: IpAddr, dst: IpAddr)
    ensures var h := IpHeader(total, id, protocol, src, dst);
      && Cksum(h, 0) == 0 && h[0] == 0x45 && Read16(h, 2) == total && Read16(h, 6) == 0 && h[9] == protocol
      && ReadAddr(h, 12) == src && ReadAddr(h, 16) == dst
  {
    var front, back := IpFront(total, id, protocol), IpBack(src, dst);
    SealedVerifies(front, back, 0);
    var h := IpHeader(total, id, protocol, src, dst);
    assert forall k :: 0 <= k < 10 ==> h[k] == front[k];
    assert forall k :: 12 <= k < 20 ==> h[k] == back[k - 12];
  }

  /** build_packet then input, with any trailing padding from the link: the payload comes back. */
  lemma IpRoundTrip(protocol: u8, data: seq<u8>, src: IpAddr, dst: IpAddr, id: u16, padding: seq<u8>, broadcast: IpAddr)
    requires IP_HDR_SIZE + |data| <= 0xffff
    ensures IpBytes(protocol, data, src, dst, id).Ok?
    ensures IpInput(IpBytes(protocol, data, src, dst, id).value + padding, dst, broadcast)
            == Handed(protocol, src, dst, data)
  {
    var total := IP_HDR_SIZE + |data|;
    var h := IpHeader(total, id, protocol, src, dst);
    IpHeaderReads(total, id, protocol, src, dst);
    var f := h + data + padding;
    assert forall k :: 0 <= k < 20 ==> f[k] == h[k];
    assert f[..20] == h;
    assert f[20..total] == data;
  }

  lemma TcpFrontReads(src: u16, dst: u16, seg: Segment)
    ensures var f := TcpFront(src, dst, seg);
      && Read16(f, 0) == src && Read16(f, 2) == dst && Read32(f, 4) == seg.sn && Read32(f, 8) == seg.ack
      && f[12] == 0x50 && ReadFlags(f[13]) == seg.flg && Read16(f, 14) == seg.wnd
  {
    FlagsRoundTrip(seg.flg);
  }

  /** What a header reads, its buffer reads. */
  lemma TcpReads(b: seq<u8>, front: seq<u8>)
    requires |front| == 16 && front <= b
    ensures Read16(b, 0) == Read16(front, 0) && Read16(b, 2) == Read16(front, 2) && Read32(b, 4) == Read32(front, 4)
    ensures Read32(b, 8) == Read32(front, 8) && b[12] == front[12] && b[13] == front[13]
    ensures Read16(b, 14) == Read16(front, 14)
  {
  }

  /** The fields of a built segment read back. */
  lemma TcpBytesRead(src: Endpoint, dst: Endpoint, seg: Segment)
    ensures var b := TcpBytes(src, dst, seg);
      && Read16(b, 0) == src.port && Read16(b, 2) == dst.port && Read32(b, 4) == seg.sn && Read32(b, 8) == seg.ack
      && b[12] == 0x50 && ReadFlags(b[13]) == seg.flg && Read16(b, 14) == seg.wnd && b[20..] == seg.data
  {
    TcpFrontReads(src.port, dst.port, seg);
    var sum := Cksum(WithField(TcpFront(src.port, dst.port, seg), 0, TcpBack(seg)),
                     TcpInit(src.addr, dst.addr, TCP_HDR_SIZE + |seg.data|));
    FieldParts(TcpFront(src.port, dst.port, seg), sum, TcpBack(seg));
    TcpReads(TcpBytes(src, dst, seg), TcpFront(src.port, dst.port, seg));
  }

  lemma TcpBytesVerify(src: Endpoint, dst: Endpoint, seg: Segment)
    ensures var b := TcpBytes(src, dst, seg); Cksum(b, TcpInit(src.addr, dst.addr, |b|)) == 0
  {
    SealedVerifies(TcpFront(src.port, dst.port, seg), TcpBack(seg),
                   TcpInit(src.addr, dst.addr, TCP_HDR_SIZE + |seg.data|));
  }

  /** A segment whose checksum and header are as built is taken for what it is. */
  lemma TcpTaken(b: Payload, src: Endpoint, dst: Endpoint, seg: Segment, broadcast: IpAddr)
    requires |b| >= 20 && Cksum(b, TcpInit(src.addr, dst.addr, |b|)) == 0
    requires Read16(b, 0) == src.port && Read16(b, 2) == dst.port && Read32(b, 4) == seg.sn && Read32(b, 8) == seg.ack
    requires b[12] == 0x50 && ReadFlags(b[13]) == seg.flg && Read16(b, 14) == seg.wnd && b[20..] == seg.data
    requires src.addr !in {BROADCAST, broadcast} && dst.addr !in {BROADCAST, broadcast}
    ensures TcpInput(b, src.addr, dst.addr, broadcast) == Arrived(dst, src, seg)
  {
  }

  /** output_segment then input: the segment comes back, between the same endpoints. */
  lemma TcpRoundTrip(src: Endpoint, dst: Endpoint, seg: Segment, broadcast: IpAddr)
    requires TCP_HDR_SIZE + |seg.data| <= 0xffff
    requires src.addr !in {BROADCAST, broadcast} && dst.addr !in {BROADCAST, broadcast}
    ensures TcpInput(TcpBytes(src, dst, seg), src.addr, dst.addr, broadcast) == Arrived(dst, src, seg)
  {
    TcpBytesRead(src, dst, seg);
    TcpBytesVerify(src, dst, seg);
    TcpTaken(TcpBytes(src, dst, seg), src, dst, seg, broadcast);
  }

  lemma UdpWithReads(src: u16, dst: u16, c: u16, data: seq<u8>)
    requires UDP_HDR_SIZE + |data| <= 0xffff
    ensures var b := UdpWith(src, dst, c, data);
      && Read16(b, 0) == src && Read16(b, 2) == dst && Read16(b, 4) == |b| && b[8..] == data
      && (c != 0 ==> Read16(b, 6) != 0)
  {
    var front := UdpFront(src, dst, UDP_HDR_SIZE + |data|);
    var b := UdpWith(src, dst, c, data);
    assert forall k :: 0 <= k < 6 ==> b[k] == front[k];
    assert b[6] == LeBytes(c)[0] && b[7] == LeBytes(c)[1];
  }

  lemma UdpVerifies(src: u16, dst: u16, c: u16, data: seq<u8>, init: u16)
    requires UDP_HDR_SIZE + |data| <= 0xffff && c == UdpSum(Cksum(UdpWith(src, dst, 0, data), init))
    ensures Cksum(UdpWith(src, dst, c, data), init) == 0
  {
    FilledFieldVerifies(UdpFront(src, dst, UDP_HDR_SIZE + |data|), data, init, c);
  }

  /** A datagram whose checksum and header are as built is taken for what it is. */
  lemma UdpTaken(b: seq<u8>, src: Endpoint, dst: Endpoint, data: seq<u8>)
    requires |b| >= 8 && Cksum(b, PseudoSum(src.addr, dst.addr, PROTOCOL_UDP, |b|)) == 0
    requires Read16(b, 0) == src.port && Read16(b, 2) == dst.port && Read16(b, 4) == |b| && b[8..] == data
    ensures UdpInput(b, src.addr, dst.addr) == Datagram(dst, src, data)
  {
  }

  /** UDP output then input: the datagram comes back, and it always carries a checksum. */
  lemma UdpRoundTrip(src: Endpoint, dst: Endpoint, data: seq<u8>)
    requires UDP_HDR_SIZE + |data| <= 0xffff
    ensures UdpBytes(src, dst, data).Ok? && |UdpBytes(src, dst, data).value| == UDP_HDR_SIZE + |data|
    ensures UdpInput(UdpBytes(src, dst, data).value, src.addr, dst.addr) == Datagram(dst, src, data)
    ensures Read16(UdpBytes(src, dst, data).value, 6) != 0
  {
    var init := PseudoSum(src.addr, dst.addr, PROTOCOL_UDP, UDP_HDR_SIZE + |data|);
    var c := UdpSum(Cksum(UdpWith(src.port, dst.port, 0, data), init));
    UdpWithReads(src.port, dst.port, c, data);
    UdpVerifies(src.port, dst.port, c, data, init);
    UdpTaken(UdpWith(src.port, dst.port, c, data), src, dst, data);
  }

  /** A whole TCP packet: through output_segment, build_packet, the link with its padding, and both inputs. */
  lemma PacketRoundTrip(src: Endpoint, dst: Endpoint, seg: Segment, id: u16, padding: seq<u8>, broadcast: IpAddr)
    requires IP_HDR_SIZE + TCP_HDR_SIZE + |seg.data| <= 0xffff
    requires src.addr !in {BROADCAST, broadcast} && dst.addr !in {BROADCAST, broadcast}
    ensures
      var out := IpBytes(PROTOCOL_TCP, TcpBytes(src, dst, seg), src.addr, dst.addr, id);
      && out.Ok?
      && IpInput(out.value + padding, dst.addr, broadcast)
         == Handed(PROTOCOL_TCP, src.addr, dst.addr, TcpBytes(src, dst, seg))
      && TcpInput(TcpBytes(src, dst, seg), src.addr, dst.addr, broadcast) == Arrived(dst, src, seg)
  {
    IpRoundTrip(PROTOCOL_TCP, TcpBytes(src, dst, seg), src.addr, dst.addr, id, padding, broadcast);
    TcpRoundTrip(src, dst, seg, broadcast);
  }

  /** A whole UDP packet. */
  lemma DatagramRoundTrip(src: Endpoint, dst: Endpoint, data: seq<u8>, id: u16, padding: seq<u8>, broadcast: IpAddr)
    requires IP_HDR_SIZE + UDP_HDR_SIZE + |data| <= 0xffff
    ensures
      var dgram := UdpBytes(src, dst, data);
      dgram.Ok? &&
      var out := IpBytes(PROTOCOL_UDP, dgram.value, src.addr, dst.addr, id);
      && out.Ok?
      && IpInput(out.value + padding, dst.addr, broadcast) == Handed(PROTOCOL_UDP, src.addr, dst.addr, dgram.value)
      && UdpInput(dgram.value, src.addr, dst.addr) == Datagram(dst, src, data)
  {
    UdpRoundTrip(src, dst, data);
    IpRoundTrip(PROTOCOL_UDP, UdpBytes(src, dst, data).value, src.addr, dst.addr, id, padding, broadcast);
  }
}
