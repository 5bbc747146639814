/** What the inputs of src/ip.rs, src/tcp.rs and src/udp.rs turn away: packets that were changed on the way. */
module PacketChecks {
  import opened Wrappers
  import opened Words
  import opened Inet
  import opened Checksum
  import opened TcpPcb
  import opened Packets

  /** The aligned word `k` of `s`, as the checksum reads it. */
  function WordAt(s: seq<u8>, k: nat): u16
    requires 2 * k + 2 <= |s|
  {
    LeWord(s[2 * k], s[2 * k + 1])
  }

  /** `s` with its word `k` changed to `v`. */
  function Changed(s: seq<u8>, k: nat, v: u16): (r: seq<u8>)
    requires 2 * k + 2 <= |s|
    ensures |r| == |s|
  {
    s[..2 * k] + LeBytes(v) + s[2 * k + 2..]
  }

  /** Two different words that are not the two zeros of ones'-complement arithmetic. */
  predicate Differ(w: u16, v: u16) {
    v != w && !(v in {0, 0xffff} && w in {0, 0xffff})
  }

  lemma WordBytes(s: seq<u8>, k: nat)
    requires 2 * k + 2 <= |s|
    ensures s == WithField(s[..2 * k], WordAt(s, k), s[2 * k + 2..])
  {
    assert LeBytes(WordAt(s, k)) == [s[2 * k], s[2 * k + 1]];
    assert s == s[..2 * k] + [s[2 * k], s[2 * k + 1]] + s[2 * k + 2..];
  }

  /** A change that the checksum sees. */
  lemma ChangeIsSeen(s: seq<u8>, k: nat, v: u16, init: u16)
    requires 2 * k + 2 <= |s| && Cksum(s, init) == 0 && Differ(WordAt(s, k), v)
    ensures Cksum(Changed(s, k, v), init) != 0
  {
    WordBytes(s, k);
    ChangedWordVerifiesIff(s[..2 * k], s[2 * k + 2..], init, WordAt(s, k), v);
  }

  /** A TCP segment with one aligned word changed, anywhere in its header or text, is dropped. */
  lemma ChangedSegmentIsDropped(src: Endpoint, dst: Endpoint, seg: Segment, k: nat, v: u16, broadcast: IpAddr)
    requires TCP_HDR_SIZE + |seg.data| <= 0xffff && 2 * k + 2 <= TCP_HDR_SIZE + |seg.data|
    requires Differ(WordAt(TcpBytes(src, dst, seg), k), v)
    ensures TcpInput(Changed(TcpBytes(src, dst, seg), k, v), src.addr, dst.addr, broadcast) == TcpDropped
  {
    TcpBytesVerify(src, dst, seg);
    ChangeIsSeen(TcpBytes(src, dst, seg), k, v, TcpInit(src.addr, dst.addr, |TcpBytes(src, dst, seg)|));
  }

  /** A UDP datagram with one aligned word changed is dropped, unless that word is its checksum and the change says that
      there is none. */
  lemma ChangedDatagramIsDropped(src: Endpoint, dst: Endpoint, data: seq<u8>, k: nat, v: u16)
    requires UDP_HDR_SIZE + |data| <= 0xffff && 2 * k + 2 <= |UdpBytes(src, dst, data).value|
    requires Differ(WordAt(UdpBytes(src, dst, data).value, k), v) && !(k == 3 && v == 0)
    ensures UdpInput(Changed(UdpBytes(src, dst, data).value, k, v), src.addr, dst.addr) == UdpDropped
  {
    var b := UdpBytes(src, dst, data).value;
    var init := PseudoSum(src.addr, dst.addr, PROTOCOL_UDP, |b|);
    var c := UdpSum(Cksum(UdpWith(src.port, dst.port, 0, data), init));
    UdpVerifies(src.port, dst.port, c, data, init);
    UdpWithReads(src.port, dst.port, c, data);
    ChangeIsSeen(b, k, v, init);
    var changed := Changed(b, k, v);
    if k == 3 {
      assert changed[6] == LeBytes(v)[0] && changed[7] == LeBytes(v)[1];
    } else {
      assert changed[6] == b[6] && changed[7] == b[7];
    }
  }

  /** Without a checksum the same datagram is taken as it is: a change of the checksum to zero is the one that cannot be
      seen. */
  lemma ZeroedChecksumIsTaken(src: Endpoint, dst: Endpoint, data: seq<u8>)
    requires UDP_HDR_SIZE + |data| <= 0xffff
    ensures |UdpBytes(src, dst, data).value| == UDP_HDR_SIZE + |data|
    ensures UdpInput(Changed(UdpBytes(src, dst, data).value, 3, 0), src.addr, dst.addr) == Datagram(dst, src, data)
  {
    UdpRoundTrip(src, dst, data);
    var b := UdpBytes(src, dst, data).value;
    var init := PseudoSum(src.addr, dst.addr, PROTOCOL_UDP, |b|);
    var c := UdpSum(Cksum(UdpWith(src.port, dst.port, 0, data), init));
    UdpWithReads(src.port, dst.port, c, data);
    var changed := Changed(b, 3, 0);
    assert changed[6] == 0 && changed[7] == 0;
    assert forall i :: 0 <= i < |b| && i != 6 && i != 7 ==> changed[i] == b[i];
    assert changed[8..] == b[8..];
  }

  /** An IP packet with one aligned word of its header changed, other than the one with the version and the header
      length, is dropped. */
  lemma ChangedHeaderIsDropped(protocol: u8, data: seq<u8>, src: IpAddr, dst: IpAddr, id: u16, k: nat, v: u16,
                               unicast: IpAddr, broadcast: IpAddr)
    requires IP_HDR_SIZE + |data| <= 0xffff && 1 <= k < 10
    requires Differ(WordAt(IpHeader(IP_HDR_SIZE + |data|, id, protocol, src, dst), k), v)
    ensures var h := IpHeader(IP_HDR_SIZE + |data|, id, protocol, src, dst);
      IpInput(Changed(h, k, v) + data, unicast, broadcast) == IpDropped
  {
    var h := IpHeader(IP_HDR_SIZE + |data|, id, protocol, src, dst);
    IpHeaderReads(IP_HDR_SIZE + |data|, id, protocol, src, dst);
    ChangeIsSeen(h, k, v, 0);
    var changed := Changed(h, k, v);
    assert changed[0] == h[0];
    assert (changed + data)[..20] == changed;
  }

  /** What is handed on passed every check: IP version 4, a header checksum that adds up, no fragment, one of this
      host's addresses, and a payload of the length that the header states. */
  lemma HandedIsSound(data: seq<u8>, unicast: IpAddr, broadcast: IpAddr)
    requires IpInput(data, unicast, broadcast).Handed?
    ensures var r, hlen := IpInput(data, unicast, broadcast), data[0] % 16 * 4;
      && |data| >= 20 && data[0] / 16 == 4 && hlen <= |data| && Cksum(data[..hlen], 0) == 0
      && data[6] / 32 % 2 == 0 && data[6] % 32 == 0 && data[7] == 0
      && r.dst in {unicast, broadcast, BROADCAST}
      && |r.payload| + hlen == Read16(data, 2) && r.payload <= data[hlen..]
  {
    var o := Read16(data, 6);
    assert o / 0x2000 == data[6] / 32 && o % 0x2000 == data[6] % 32 * 0x100 + data[7];
  }

  /** A segment that arrives had a checksum that adds up, and no broadcast address on either side. */
  lemma ArrivedIsSound(data: Payload, src: IpAddr, dst: IpAddr, broadcast: IpAddr)
    requires TcpInput(data, src, dst, broadcast).Arrived?
    ensures |data| >= 20 && Cksum(data, TcpInit(src, dst, |data|)) == 0
    ensures src !in {BROADCAST, broadcast} && dst !in {BROADCAST, broadcast}
    ensures var r := TcpInput(data, src, dst, broadcast);
      r.local.addr == dst && r.remote.addr == src && |r.seg.data| == |data| - data[12] / 16 * 4
  {
  }

  /** A datagram is taken exactly if its header states its length and its checksum, unless it is zero, adds up; then its
      endpoints and its data are those of the packet. */
  lemma DatagramIff(data: seq<u8>, src: IpAddr, dst: IpAddr)
    ensures UdpInput(data, src, dst).Datagram? <==>
      && |data| >= 8 && Read16(data, 4) == |data|
      && ((data[6] == 0 && data[7] == 0) || Cksum(data, PseudoSum(src, dst, PROTOCOL_UDP, |data|)) == 0)
    ensures var r := UdpInput(data, src, dst);
      r.Datagram? ==>
        && r.dst == Endpoint(dst, Read16(data, 2)) && r.src == Endpoint(src, Read16(data, 0))
        && r.data == data[8..]
  {
  }
}
