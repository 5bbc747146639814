/** The ARP cache of src/arp.rs (RFC 826), and the history of ARP packets it must agree with. */
module Arp {
  import opened Wrappers
  import opened Words
  import opened Inet
  import opened Packets
  import opened PacketBuffers

  const CACHE_SIZE := 32
  const CACHE_TIMEOUT := 30_000_000_000     // nanoseconds
  const ARP_OP_REQUEST: u16 := 1
  const ARP_OP_REPLY: u16 := 2

  type EtherAddr = s: seq<u8> | |s| == 6 witness [0, 0, 0, 0, 0, 0]

  const ETHER_ANY: EtherAddr := [0, 0, 0, 0, 0, 0]

  datatype CacheState = Incomplete | Resolved | Static

  datatype Entry = Entry(state: CacheState, pa: IpAddr, ha: EtherAddr, timestamp: nat)

  // ---------------------------------------------------------------- packets

  datatype ArpPacket = ArpPacket(op: u16, sha: EtherAddr, spa: IpAddr, tha: EtherAddr, tpa: IpAddr)

  /** The validation at the head of `input`: Ethernet and IP, with their address lengths. */
  function Parse(data: seq<u8>): Option<ArpPacket> {
    if |data| < 8 || Read16(data, 0) != 1 || data[4] != 6 || Read16(data, 2) != 0x0800 || data[5] != 4 || |data| < 28
    then None
    else Some(ArpPacket(Read16(data, 6), data[8..14], ReadAddr(data, 14), data[18..24], ReadAddr(data, 24)))
  }

  /** The packet as `request` and `reply` write it. */
  function Bytes(p: ArpPacket): (s: seq<u8>)
    ensures |s| == 28
  {
    [0, 1, 8, 0, 6, 4] + Be16(p.op) + p.sha + AddrBytes(p.spa) + p.tha + AddrBytes(p.tpa)
  }

  /** What is built is read back, with any padding from the link. */
  lemma PacketReads(p: ArpPacket, padding: seq<u8>)
    ensures Parse(Bytes(p) + padding) == Some(p)
  {
    var b := Bytes(p) + padding;
    assert b[8..14] == p.sha && b[18..24] == p.tha;
    assert forall k :: 0 <= k < 28 ==> b[k] == Bytes(p)[k];
  }

  /** `request` and `reply`: the fields go into a zeroed buffer one by one; the target hardware address of a request
      stays zero. */
  method Build(p: ArpPacket) returns (r: seq<u8>)
    ensures r == Bytes(p)
  {
    var buf := new u8[28](_ => 0);
    BuildHeader(buf, p.op);
    CopyInto(buf, 8, p.sha);
    CopyInto(buf, 14, AddrBytes(p.spa));
    CopyInto(buf, 18, p.tha);
    CopyInto(buf, 24, AddrBytes(p.tpa));
    assert buf[..8] == [0, 1, 8, 0, 6, 4] + Be16(p.op);
    assert buf[..] == buf[..8] + buf[8..14] + buf[14..18] + buf[18..24] + buf[24..];
    return buf[..];
  }

  method BuildHeader(buf: array<u8>, op: u16)
    requires buf.Length == 28
    modifies buf
    ensures buf[..8] == [0, 1, 8, 0, 6, 4] + Be16(op)
  {
    CopyInto(buf, 0, Be16(1));
    CopyInto(buf, 2, Be16(0x0800));
    buf[4] := 6;
    buf[5] := 4;
    CopyInto(buf, 6, Be16(op));
  }

  /** An interface: its hardware address and its protocol address. */
  datatype Iface = Iface(ha: EtherAddr, pa: IpAddr)

  function Request(me: Iface, pa: IpAddr): ArpPacket {
    ArpPacket(ARP_OP_REQUEST, me.ha, me.pa, ETHER_ANY, pa)
  }

  function Reply(me: Iface, to: ArpPacket): ArpPacket {
    ArpPacket(ARP_OP_REPLY, me.ha, me.pa, to.sha, to.spa)
  }

  // ---------------------------------------------------------------- operations on the cache

  /** The first entry for `pa` from index `i` on. */
  function Find(c: seq<Entry>, pa: IpAddr, i: nat): (k: Option<nat>)
    requires i <= |c|
    ensures k.None? ==> forall j :: i <= j < |c| ==> c[j].pa != pa
    ensures k.Some? ==> i <= k.value < |c| && c[k.value].pa == pa && forall j :: i <= j < k.value ==> c[j].pa != pa
    decreases |c| - i
  {
    if i == |c| then None else if c[i].pa == pa then Some(i) else Find(c, pa, i + 1)
  }

  function Updated(c: seq<Entry>, pa: IpAddr, ha: EtherAddr, now: nat): seq<Entry> {
    match Find(c, pa, 0)
    case None => c
    case Some(k) => c[k := Entry(Resolved, pa, ha, now)]
  }

  /** The scan for a victim up to index `n`: the oldest entry that is not static, the first of several. */
  function Oldest(c: seq<Entry>, n: nat): (k: Option<nat>)
    requires n <= |c|
    ensures k.None? ==> forall j :: 0 <= j < n ==> c[j].state == Static
    ensures k.Some? ==> k.value < n && c[k.value].state != Static
    ensures k.Some? ==> forall j :: 0 <= j < n && c[j].state != Static ==>
      c[k.value].timestamp < c[j].timestamp || (c[k.value].timestamp == c[j].timestamp && k.value <= j)
  {
    if n == 0 then None
    else
      var k := Oldest(c, n - 1);
      if c[n - 1].state == Static || (k.Some? && c[k.value].timestamp <= c[n - 1].timestamp) then k else Some(n - 1)
  }

  function Inserted(c: seq<Entry>, e: Entry): seq<Entry> {
    if |c| < CACHE_SIZE then c + [e]
    else
      match Oldest(c, |c|)
      case None => c
      case Some(k) => c[k := e]
  }

  predicate Keeps(e: Entry, now: nat) {
    e.state == Static || now < e.timestamp + CACHE_TIMEOUT
  }

  /** What a timer run leaves. */
  function Expire(c: seq<Entry>, now: nat): seq<Entry> {
    if c == [] then []
    else
      var n := |c| - 1;
      Expire(c[..n], now) + (if Keeps(c[n], now) then [c[n]] else [])
  }

  /** What `resolve` answers, and whether it sends a request. */
  datatype Answer = Known(ha: EtherAddr) | Pending | Asked

  function Resolve(c: seq<Entry>, pa: IpAddr, now: nat): (seq<Entry>, Answer) {
    match Find(c, pa, 0)
    case None => (Inserted(c, Entry(Incomplete, pa, ETHER_ANY, now)), Asked)
    case Some(k) => (c, if c[k].state == Incomplete then Pending else Known(c[k].ha))
  }

  /** The cache after a valid packet, and the reply; `me` is the interface the packet came in on, if it has one. */
  function Heard(c: seq<Entry>, p: ArpPacket, me: Option<Iface>, now: nat): (seq<Entry>, Option<ArpPacket>) {
    var d := Updated(c, p.spa, p.sha, now);
    if me.None? || me.value.pa != p.tpa then (d, None)
    else
      (if Find(c, p.spa, 0).None? then Inserted(d, Entry(Resolved, p.spa, p.sha, now)) else d,
       if p.op == ARP_OP_REQUEST then Some(Reply(me.value, p)) else None)
  }

  // ---------------------------------------------------------------- the cache in place

  class Cache {
    var entries: seq<Entry>

    constructor ()
      ensures entries == []
    {
      entries := [];
    }

    method Select(pa: IpAddr) returns (r: Option<(CacheState, EtherAddr)>)
      ensures r == match Find(entries, pa, 0)
                   case None => None
                   case Some(k) => Some((entries[k].state, entries[k].ha))
    {
      var i := 0;
      while i < |entries|
        invariant 0 <= i <= |entries| && Find(entries, pa, 0) == Find(entries, pa, i)
      {
        if entries[i].pa == pa {
          return Some((entries[i].state, entries[i].ha));
        }
        i := i + 1;
      }
      return None;
    }

    method Update(pa: IpAddr, ha: EtherAddr, now: nat) returns (merged: bool)
      modifies this
      ensures entries == Updated(old(entries), pa, ha, now)
      ensures merged == Find(old(entries), pa, 0).Some?
    {
      var i := 0;
      while i < |entries|
        invariant 0 <= i <= |entries| && entries == old(entries) && Find(entries, pa, 0) == Find(entries, pa, i)
      {
        if entries[i].pa == pa {
          entries := entries[i := entries[i].(ha := ha, state := Resolved, timestamp := now)];
          return true;
        }
        i := i + 1;
      }
      return false;
    }

    method Insert(pa: IpAddr, ha: EtherAddr, state: CacheState, now: nat)
      modifies this
      ensures entries == Inserted(old(entries), Entry(state, pa, ha, now))
    {
      if |entries| < CACHE_SIZE {
        entries := entries + [Entry(state, pa, ha, now)];
        return;
      }
      var oldest: Option<nat> := None;
      var i := 0;
      while i < |entries|
        invariant 0 <= i <= |entries| && entries == old(entries) && oldest == Oldest(entries, i)
      {
        if entries[i].state != Static && (oldest.None? || entries[oldest.value].timestamp > entries[i].timestamp) {
          oldest := Some(i);
        }
        i := i + 1;
      }
      if oldest.Some? {
        entries := entries[oldest.value := Entry(state, pa, ha, now)];
      }
    }

    /** The timer removes entries while it walks over the vector; a subtraction that would go below zero is zero. */
    method OnTimer(now: nat)
      modifies this
      ensures entries == Expire(old(entries), now)
    {
      ghost var seen := 0;
      var i := 0;
      while i < |entries|
        invariant 0 <= i <= |entries| && 0 <= seen <= |old(entries)|
        invariant entries[..i] == Expire(old(entries)[..seen], now) && entries[i..] == old(entries)[seen..]
        decreases |entries| - i
      {
        var age := if now < entries[i].timestamp then 0 else now - entries[i].timestamp;
        ExpireRound(old(entries), seen, entries, i, now);
        if entries[i].state != Static && age >= CACHE_TIMEOUT {
          entries := entries[..i] + entries[i + 1..];
        } else {
          i := i + 1;
        }
        seen := seen + 1;
      }
      assert entries[..i] == entries && old(entries)[..seen] == old(entries);
    }

    /** `resolve`; a request goes out for an address the cache does not know. */
    method ResolveAddress(me: Iface, pa: IpAddr, now: nat) returns (r: Answer, request: Option<seq<u8>>)
      modifies this
      ensures (entries, r) == Resolve(old(entries), pa, now)
      ensures request == if r == Asked then Some(Bytes(Request(me, pa))) else None
    {
      var found := Select(pa);
      if found.None? {
        Insert(pa, ETHER_ANY, Incomplete, now);
        var bytes := Build(Request(me, pa));
        return Asked, Some(bytes);
      }
      return if found.value.0 == Incomplete then Pending else Known(found.value.1), None;
    }

    /** `input`; the result is the reply, if one goes out. */
    method Input(data: seq<u8>, me: Option<Iface>, now: nat) returns (reply: Option<seq<u8>>)
      modifies this
      ensures Parse(data).None? ==> entries == old(entries) && reply == None
      ensures Parse(data).Some? ==>
        var h := Heard(old(entries), Parse(data).value, me, now);
        entries == h.0 && reply == if h.1.None? then None else Some(Bytes(h.1.value))
    {
      var parsed := Parse(data);
      if parsed.None? {
        return None;
      }
      var p := parsed.value;
      var merged := Update(p.spa, p.sha, now);
      if me.None? || p.tpa != me.value.pa {
        return None;
      }
      if !merged {
        Insert(p.spa, p.sha, Resolved, now);
      }
      if p.op != ARP_OP_REQUEST {
        return None;
      }
      var bytes := Build(Reply(me.value, p));
      return Some(bytes);
    }
  }

  /** One round of the timer's walk, whichever way it goes: `c` was the cache when it began, `d` is what it is now. */
  lemma ExpireRound(c: seq<Entry>, k: nat, d: seq<Entry>, i: nat, now: nat)
    requires k <= |c| && i < |d| && d[..i] == Expire(c[..k], now) && d[i..] == c[k..]
    ensures k < |c| && d[i] == c[k]
    ensures Keeps(d[i], now) ==> d[..i + 1] == Expire(c[..k + 1], now) && d[i + 1..] == c[k + 1..]
    ensures !Keeps(d[i], now) ==>
      var e := d[..i] + d[i + 1..];
      e[..i] == Expire(c[..k + 1], now) && e[i..] == c[k + 1..]
  {
    assert d[i..][0] == c[k..][0];
    assert c[..k + 1][..k] == c[..k];
    assert d[i..][1..] == d[i + 1..] && c[k..][1..] == c[k + 1..];
    var e := d[..i] + d[i + 1..];
    assert e[..i] == d[..i] && e[i..] == d[i + 1..];
  }

  // ---------------------------------------------------------------- what the timer leaves

  /** `kept` lists, in order, the positions of `c` that `d` takes over. */
  predicate Selects(c: seq<Entry>, kept: seq<nat>, d: seq<Entry>) {
    && |kept| == |d|
    && (forall k :: 0 <= k < |kept| ==> kept[k] < |c| && d[k] == c[kept[k]])
    && (forall k, m :: 0 <= k < m < |kept| ==> kept[k] < kept[m])
  }

  /** Exactly the static entries and those younger than 30 seconds remain, in their order. */
  lemma {:induction false} ExpireExact(c: seq<Entry>, now: nat) returns (kept: seq<nat>)
    ensures Selects(c, kept, Expire(c, now))
    ensures forall i: nat :: i < |c| ==> (i in kept <==> c[i].state == Static || now < c[i].timestamp + CACHE_TIMEOUT)
  {
    if c == [] {
      kept := [];
    } else {
      var n := |c| - 1;
      var before := ExpireExact(c[..n], now);
      SelectsMore(c, before, Expire(c[..n], now));
      kept := before + (if Keeps(c[n], now) then [n] else []);
      forall i: nat | i < |c|
        ensures i in kept <==> Keeps(c[i], now)
      {
        if i < n {
          assert c[..n][i] == c[i];
        }
      }
    }
  }

  lemma SelectsMore(c: seq<Entry>, kept: seq<nat>, d: seq<Entry>)
    requires c != [] && Selects(c[..|c| - 1], kept, d)
    ensures Selects(c, kept + [], d + []) && Selects(c, kept + [|c| - 1], d + [c[|c| - 1]])
    ensures |c| - 1 !in kept
  {
  }

  // ---------------------------------------------------------------- the cache against the history

  /** One thing that happens, at a moment. */
  datatype ArpEvent =
    | Packet(p: ArpPacket, me: Option<Iface>, now: nat)
    | Lookup(pa: IpAddr, now: nat)
    | Sweep(now: nat)

  function After(c: seq<Entry>, ev: ArpEvent): seq<Entry> {
    match ev
    case Packet(p, me, now) => Heard(c, p, me, now).0
    case Lookup(pa, now) => Resolve(c, pa, now).0
    case Sweep(now) => Expire(c, now)
  }

  /** The sender hardware address, and the moment, of the most recent valid packet from `pa`. */
  function Latest(evs: seq<ArpEvent>, pa: IpAddr): Option<(EtherAddr, nat)> {
    if evs == [] then None
    else
      var ev := evs[|evs| - 1];
      if ev.Packet? && ev.p.spa == pa then Some((ev.p.sha, ev.now)) else Latest(evs[..|evs| - 1], pa)
  }

  /** An entry agrees with the history: a resolved one is the most recent packet from its address. The code never makes
      a static one. */
  ghost predicate Agrees(e: Entry, evs: seq<ArpEvent>) {
    match e.state
    case Resolved => Latest(evs, e.pa) == Some((e.ha, e.timestamp))
    case Incomplete => e.ha == ETHER_ANY && (Latest(evs, e.pa).Some? ==> Latest(evs, e.pa).value.1 <= e.timestamp)
    case Static => false
  }

  ghost predicate CacheInv(c: seq<Entry>, evs: seq<ArpEvent>) {
    && |c| <= CACHE_SIZE
    && (forall i, j :: 0 <= i < j < |c| ==> c[i].pa != c[j].pa)
    && (forall i :: 0 <= i < |c| ==> Agrees(c[i], evs))
  }

  /** `t` lists the cache before, between and after the events, on a clock that does not run backwards. */
  ghost predicate IsArpRun(t: seq<seq<Entry>>, evs: seq<ArpEvent>) {
    && |t| == |evs| + 1
    && t[0] == []
    && (forall i, j :: 0 <= i < j < |evs| ==> evs[i].now <= evs[j].now)
    && forall i {:trigger evs[i]} :: 0 <= i < |evs| ==> t[i + 1] == After(t[i], evs[i])
  }

  /** No packet in a history is later than its end. */
  lemma {:induction false} LatestBefore(evs: seq<ArpEvent>, pa: IpAddr, now: nat)
    requires forall i :: 0 <= i < |evs| ==> evs[i].now <= now
    ensures Latest(evs, pa).Some? ==> Latest(evs, pa).value.1 <= now
  {
    if evs != [] {
      LatestBefore(evs[..|evs| - 1], pa, now);
    }
  }

  lemma LatestStep(evs: seq<ArpEvent>, ev: ArpEvent, pa: IpAddr)
    ensures Latest(evs + [ev], pa) == if ev.Packet? && ev.p.spa == pa then Some((ev.p.sha, ev.now)) else Latest(evs, pa)
  {
    assert (evs + [ev])[..|evs|] == evs;
  }

  /** An insertion of an address the cache does not hold. */
  lemma InsertKeeps(c: seq<Entry>, e: Entry, evs: seq<ArpEvent>)
    requires CacheInv(c, evs) && Agrees(e, evs) && (forall i :: 0 <= i < |c| ==> c[i].pa != e.pa)
    ensures CacheInv(Inserted(c, e), evs)
  {
  }

  lemma {:induction false} ExpireKeeps(c: seq<Entry>, now: nat, evs: seq<ArpEvent>)
    requires CacheInv(c, evs)
    ensures CacheInv(Expire(c, now), evs)
  {
    var kept := ExpireExact(c, now);
    SelectsShort(c, kept, Expire(c, now));
  }

  lemma {:induction false} SelectsShort(c: seq<Entry>, kept: seq<nat>, d: seq<Entry>)
    requires Selects(c, kept, d)
    ensures |d| <= |c|
  {
    if |kept| > 0 {
      KeptGrows(kept, |kept| - 1);
    }
  }

  lemma {:induction false} KeptGrows(kept: seq<nat>, k: nat)
    requires k < |kept| && forall i, j :: 0 <= i < j < |kept| ==> kept[i] < kept[j]
    ensures kept[k] >= k
  {
    if k > 0 {
      KeptGrows(kept, k - 1);
    }
  }

  /** A packet that refreshes the entry of its sender, or finds none. */
  lemma UpdateKeeps(c: seq<Entry>, ev: ArpEvent, evs: seq<ArpEvent>)
    requires CacheInv(c, evs) && ev.Packet?
    ensures CacheInv(Updated(c, ev.p.spa, ev.p.sha, ev.now), evs + [ev])
  {
    var d := Updated(c, ev.p.spa, ev.p.sha, ev.now);
    forall i | 0 <= i < |d|
      ensures Agrees(d[i], evs + [ev])
    {
      LatestStep(evs, ev, d[i].pa);
    }
  }

  lemma SameHistoryKeeps(c: seq<Entry>, evs: seq<ArpEvent>, ev: ArpEvent)
    requires CacheInv(c, evs) && !ev.Packet?
    ensures CacheInv(c, evs + [ev])
  {
    forall i | 0 <= i < |c|
      ensures Agrees(c[i], evs + [ev])
    {
      LatestStep(evs, ev, c[i].pa);
    }
  }

  lemma EventKeeps(c: seq<Entry>, ev: ArpEvent, evs: seq<ArpEvent>)
    requires CacheInv(c, evs) && forall i :: 0 <= i < |evs| ==> evs[i].now <= ev.now
    ensures CacheInv(After(c, ev), evs + [ev])
  {
    match ev
    case Packet(p, me, now) =>
      UpdateKeeps(c, ev, evs);
      LatestStep(evs, ev, p.spa);
      if Find(c, p.spa, 0).None? {
        InsertKeeps(c, Entry(Resolved, p.spa, p.sha, now), evs + [ev]);
      }
    case Lookup(pa, now) =>
      SameHistoryKeeps(c, evs, ev);
      if Find(c, pa, 0).None? {
        LatestStep(evs, ev, pa);
        LatestBefore(evs, pa, now);
        InsertKeeps(c, Entry(Incomplete, pa, ETHER_ANY, now), evs + [ev]);
      }
    case Sweep(now) =>
      ExpireKeeps(c, now, evs);
      SameHistoryKeeps(Expire(c, now), evs, ev);
  }

  /** The cache agrees with the history, all along every run: at most 32 entries, one per address, and each resolved
      entry holds the sender hardware address and the moment of the most recent valid packet from its address. */
  lemma {:induction false} CacheAgrees(t: seq<seq<Entry>>, evs: seq<ArpEvent>, i: nat)
    requires IsArpRun(t, evs) && i < |t|
    ensures CacheInv(t[i], evs[..i])
  {
    if i > 0 {
      CacheAgrees(t, evs, i - 1);
      assert evs[..i] == evs[..i - 1] + [evs[i - 1]];
      EventKeeps(t[i - 1], evs[i - 1], evs[..i - 1]);
    }
  }

  /** So whatever `resolve` answers was heard: it is what the most recent valid packet from that address said. */
  lemma AnswersAreHeard(t: seq<seq<Entry>>, evs: seq<ArpEvent>, i: nat, pa: IpAddr, now: nat)
    requires IsArpRun(t, evs) && i < |t| && Resolve(t[i], pa, now).1.Known?
    ensures Latest(evs[..i], pa).Some? && Latest(evs[..i], pa).value.0 == Resolve(t[i], pa, now).1.ha
  {
    CacheAgrees(t, evs, i);
  }

  /** An insertion into a full cache replaces exactly the oldest entry that is not static, and nothing if all are. */
  lemma EvictsOldest(c: seq<Entry>, e: Entry)
    requires |c| >= CACHE_SIZE
    ensures (forall i :: 0 <= i < |c| ==> c[i].state == Static) ==> Inserted(c, e) == c
    ensures (exists i :: 0 <= i < |c| && c[i].state != Static) ==>
      exists k :: 0 <= k < |c| && c[k].state != Static && Inserted(c, e) == c[k := e]
        && forall j :: 0 <= j < |c| && c[j].state != Static ==>
             c[k].timestamp < c[j].timestamp || (c[k].timestamp == c[j].timestamp && k <= j)
  {
  }

  predicate Holds(c: seq<Entry>, pa: IpAddr) {
    exists i :: 0 <= i < |c| && c[i].pa == pa
  }

  /** The event enters an address the cache does not hold. */
  predicate Enters(c: seq<Entry>, ev: ArpEvent) {
    match ev
    case Packet(p, me, _) => me.Some? && me.value.pa == p.tpa && !Holds(c, p.spa)
    case Lookup(pa, _) => !Holds(c, pa)
    case Sweep(_) => false
  }

  /** When an address is lost: exactly to a sweep that finds its entry 30 seconds old, or to a new address that finds
      the cache full and this entry the oldest. */
  lemma LostIff(c: seq<Entry>, evs: seq<ArpEvent>, ev: ArpEvent, k: nat)
    requires CacheInv(c, evs) && k < |c|
    ensures !Holds(After(c, ev), c[k].pa)
      <==> || (ev.Sweep? && ev.now >= c[k].timestamp + CACHE_TIMEOUT)
           || (Enters(c, ev) && |c| == CACHE_SIZE && Oldest(c, |c|) == Some(k))
  {
    var d := After(c, ev);
    if ev.Sweep? {
      SweepLoses(c, ev.now, k);
      assert c[k].state != Static by {
        assert Agrees(c[k], evs);
      }
    } else {
      var pa := if ev.Packet? then ev.p.spa else ev.pa;
      if Find(c, pa, 0).Some? {
        assert d[k].pa == c[k].pa;
      } else {
        InsertLoses(c, ev, k, pa);
      }
    }
  }

  lemma SweepLoses(c: seq<Entry>, now: nat, k: nat)
    requires k < |c| && (forall i, j :: 0 <= i < j < |c| ==> c[i].pa != c[j].pa)
    ensures !Holds(Expire(c, now), c[k].pa) <==> !Keeps(c[k], now)
  {
    var kept := ExpireExact(c, now);
    var d := Expire(c, now);
    if Keeps(c[k], now) {
      var m :| 0 <= m < |kept| && kept[m] == k;
      assert d[m].pa == c[k].pa;
    } else {
      forall m | 0 <= m < |d|
        ensures d[m].pa != c[k].pa
      {
        assert d[m] == c[kept[m]] && kept[m] in kept;
      }
    }
  }

  lemma InsertLoses(c: seq<Entry>, ev: ArpEvent, k: nat, pa: IpAddr)
    requires k < |c| && !ev.Sweep? && pa == (if ev.Packet? then ev.p.spa else ev.pa) && Find(c, pa, 0).None?
    requires |c| <= CACHE_SIZE && (forall i, j :: 0 <= i < j < |c| ==> c[i].pa != c[j].pa)
    ensures !Holds(After(c, ev), c[k].pa) <==> Enters(c, ev) && |c| == CACHE_SIZE && Oldest(c, |c|) == Some(k)
  {
    var d := After(c, ev);
    assert !Holds(c, pa);
    if d[k] == c[k] {
      assert d[k].pa == c[k].pa;
    }
  }

  /** After a packet addressed to this interface, the cache knows its sender, unless it is full of static entries. */
  lemma HeardIsKnown(c: seq<Entry>, p: ArpPacket, me: Iface, now: nat, later: nat)
    requires p.tpa == me.pa && (|c| < CACHE_SIZE || exists i :: 0 <= i < |c| && c[i].state != Static)
    ensures Resolve(Heard(c, p, Some(me), now).0, p.spa, later).1 == Known(p.sha)
  {
    var d, k := Heard(c, p, Some(me), now).0, Find(c, p.spa, 0);
    var e := Entry(Resolved, p.spa, p.sha, now);
    if k.Some? {
      OnlyAt(d, k.value, e);
    } else if |c| < CACHE_SIZE {
      OnlyAt(d, |c|, e);
    } else {
      OnlyAt(d, Oldest(c, |c|).value, e);
    }
  }

  /** A packet is taken exactly if it is long enough and says Ethernet and IP, with their address lengths. */
  lemma ParsesIff(data: seq<u8>)
    ensures Parse(data).Some? <==> |data| >= 28 && data[..6] == [0, 1, 8, 0, 6, 4]
    ensures Parse(data).Some? ==>
      var p := Parse(data).value;
      && p.op == Read16(data, 6) && p.sha == data[8..14] && p.tha == data[18..24]
      && AddrBytes(p.spa) == data[14..18] && AddrBytes(p.tpa) == data[24..28]
  {
    if |data| >= 28 {
      assert data[..6] == [data[0], data[1], data[2], data[3], data[4], data[5]];
    }
  }

  /** Only requests for the own address are answered, to the one who asked and with the own addresses. */
  lemma AnswersIff(c: seq<Entry>, p: ArpPacket, me: Option<Iface>, now: nat)
    ensures var r := Heard(c, p, me, now).1;
      && (r.Some? <==> p.op == 1 && me.Some? && me.value.pa == p.tpa)
      && (r.Some? ==> r.value == ArpPacket(2, me.value.ha, me.value.pa, p.sha, p.spa))
  {
  }

  /** A packet for somebody else never enters an address; it only refreshes one that is there. */
  lemma StrangersOnlyRefresh(c: seq<Entry>, p: ArpPacket, me: Option<Iface>, now: nat, pa: IpAddr)
    requires me.None? || me.value.pa != p.tpa
    ensures Holds(Heard(c, p, me, now).0, pa) <==> Holds(c, pa)
    ensures |Heard(c, p, me, now).0| == |c|
  {
    var k := Find(c, p.spa, 0);
    if k.Some? {
      var d := Heard(c, p, me, now).0;
      assert forall i :: 0 <= i < |c| ==> d[i].pa == c[i].pa;
    }
  }

  lemma OnlyAt(d: seq<Entry>, k: nat, e: Entry)
    requires k < |d| && d[k] == e && forall j :: 0 <= j < k ==> d[j].pa != e.pa
    ensures Find(d, e.pa, 0) == Some(k)
  {
  }

  /** The exchange of RFC 826 between two hosts: the request that `a` sends for the address of `b`, read by `b`, makes
      `b` know `a` and answer; the answer, read by `a`, makes `a` know `b`. */
  lemma ExchangeResolves(a: Iface, b: Iface, ca: seq<Entry>, cb: seq<Entry>, ha: seq<ArpEvent>, hb: seq<ArpEvent>,
                         now: nat, pad1: seq<u8>, pad2: seq<u8>)
    requires CacheInv(ca, ha) && CacheInv(cb, hb) && Resolve(ca, b.pa, now).1 == Asked
    ensures
      var request := Parse(Bytes(Request(a, b.pa)) + pad1);
      request.Some? &&
      var atB := Heard(cb, request.value, Some(b), now);
      Resolve(atB.0, a.pa, now).1 == Known(a.ha) && atB.1.Some? &&
      var answer := Parse(Bytes(atB.1.value) + pad2);
      answer.Some? &&
      Resolve(Heard(Resolve(ca, b.pa, now).0, answer.value, Some(a), now).0, b.pa, now).1 == Known(b.ha)
  {
    PacketReads(Request(a, b.pa), pad1);
    PacketReads(Reply(b, Request(a, b.pa)), pad2);
    HasRoom(cb, hb);
    HeardIsKnown(cb, Request(a, b.pa), b, now, now);
    HasRoom(ca, ha);
    var c := Resolve(ca, b.pa, now).0;
    assert |c| < CACHE_SIZE || c[if |ca| < CACHE_SIZE then |ca| else Oldest(ca, |ca|).value].state == Incomplete;
    HeardIsKnown(c, Reply(b, Request(a, b.pa)), a, now, now);
  }

  /** A reachable cache has no static entries, so it always has room. */
  lemma HasRoom(c: seq<Entry>, evs: seq<ArpEvent>)
    requires CacheInv(c, evs)
    ensures |c| < CACHE_SIZE || exists i :: 0 <= i < |c| && c[i].state != Static
  {
    if |c| >= CACHE_SIZE {
      assert Agrees(c[0], evs);
    }
  }
}
