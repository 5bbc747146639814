/** The history of one connection block, and what every step of every run keeps about it. */
module TcpConn {
  import opened Wrappers
  import opened Words
  import opened Inet
  import opened TcpPcb

  /** What has happened to a block so far: `used` since open/connect/listen, `begun` since it owns sequence
      space, `synced` since it took the peer's SYN, `finSeen`/`finSent` since a FIN was processed/sent, and the
      bytes that `send` put on the wire, that SEGMENT ARRIVES accepted, and that `receive` handed out. */
  datatype Hist = Hist(
    used: bool, begun: bool, synced: bool, finSeen: bool, finSent: bool,
    written: seq<u8>, accepted: seq<u8>, read: seq<u8>)

  const NO_HIST := Hist(false, false, false, false, false, [], [], [])

  datatype Conn = Conn(p: Pcb, h: Hist, alive: bool)

  predicate Synchronized(s: State) {
    s != Closed && s != Listen && s != SynSent
  }

  predicate PeerClosed(s: State) {
    s == CloseWait || s == Closing || s == LastAck || s == TimeWait
  }

  predicate SelfClosed(s: State) {
    s == FinWait1 || s == FinWait2 || s == Closing || s == LastAck || s == TimeWait
  }

  /** The history after an event, read off the block before and after it. */
  function Observe(h: Hist, p: Pcb, ev: Event, q: Pcb): Hist {
    Hist(h.used || q.state != Closed,
         h.begun || (q.state != Closed && q.state != Listen),
         h.synced || Synchronized(q.state),
         h.finSeen || PeerClosed(q.state),
         h.finSent || SelfClosed(q.state),
         h.written + (if ev.UserSend? then Chunk(p, ev.rest) else []),
         h.accepted + (if ev.Arrival? && |p.buf| <= |q.buf| then q.buf[|p.buf|..] else []),
         h.read + (if ev.UserReceive? then Taken(p, ev.room) else []))
  }

  function Next(c: Conn, ev: Event): Conn {
    var r := Step(c.p, ev);
    Conn(r.pcb, Observe(c.h, c.p, ev, r.pcb), !r.release)
  }

  /** The block is opened once: connect and listen only while it is unused, and the first SYN left the host. */
  predicate Legal(c: Conn, ev: Event) {
    && c.alive
    && (ev.UserConnect? ==> !c.h.used && ev.delivered)
    && (ev.UserListen? ==> !c.h.used)
  }

  predicate Leads(c: Conn, ev: Event, d: Conn) {
    Legal(c, ev) && d == Next(c, ev)
  }

  /** How a block comes to be: pcb_alloc for a user call, or a listener in socket mode taking a SYN. */
  datatype Birth =
    | Allocated(task: nat)
    | Child(task: nat, parent: nat, seg: Segment, local: Endpoint, remote: Endpoint, isn: u32, now: nat)

  function Born(b: Birth): Conn {
    match b
    case Allocated(task) => Conn(EmptyPcb(task), NO_HIST, true)
    case Child(task, parent, seg, local, remote, isn, now) =>
      Conn(TakeSyn(EmptyPcb(task).(parent := Some(parent)), seg, local, remote, isn, now),
           NO_HIST.(used := true, begun := true, synced := true), true)
  }

  /** `t` lists the connection before, between and after the events `evs`. */
  ghost predicate IsRun(b: Birth, t: seq<Conn>, evs: seq<Event>) {
    && |t| == |evs| + 1
    && t[0] == Born(b)
    && forall i, j {:trigger Leads(t[i], evs[i], t[j])} :: 0 <= i && j == i + 1 && j < |t| ==> Leads(t[i], evs[i], t[j])
  }

  /** Some run of a once-opened block ends here. */
  ghost predicate Reachable(c: Conn) {
    exists b, t, evs :: IsRun(b, t, evs) && t[|evs|] == c
  }

  lemma ReachableNext(c: Conn, ev: Event)
    requires Reachable(c) && Legal(c, ev)
    ensures Reachable(Next(c, ev))
  {
    var b, t, evs :| IsRun(b, t, evs) && t[|evs|] == c;
    var t', evs' := t + [Next(c, ev)], evs + [ev];
    assert IsRun(b, t', evs');
    assert t'[|evs'|] == Next(c, ev);
  }

  lemma ReachableBorn(b: Birth)
    ensures Reachable(Born(b))
  {
    assert IsRun(b, [Born(b)], []);
  }

  // ---------------------------------------------------------------- the invariant

  /** The sequence number of byte `k` of a stream whose SYN is at `start`. */
  function Place(start: u32, k: nat): u32 {
    Wrap(start + 1 + k)
  }

  /** `data` is the piece of the stream `w` from byte `k` on. */
  predicate Piece(w: seq<u8>, k: nat, data: seq<u8>) {
    k + |data| <= |w| && data == w[k..k + |data|]
  }

  /** Which facts of the history go with which state. */
  predicate Phase(p: Pcb, h: Hist) {
    && (h.begun ==> h.used && p.state != Listen)
    && (!h.begun ==> !h.synced && !h.finSeen && !h.finSent && h.written == h.accepted == h.read == []
                      && p.buf == [] && p.queue == [] && (p.state == Closed || p.state == Listen))
    && (!h.used ==> p.state == Closed)
    && (!h.synced ==> h.accepted == h.written == [] && !h.finSeen && !h.finSent)
    && (match p.state
        case Closed => true
        case Listen => h.used
        case SynSent => !h.synced && !h.finSent && h.written == []
        case SynReceived => h.synced && !h.finSeen && !h.finSent && h.written == h.accepted == []
        case Established => h.synced && !h.finSeen && !h.finSent
        case CloseWait => h.finSeen && !h.finSent
        case FinWait1 => h.synced && !h.finSeen && h.finSent
        case FinWait2 => h.synced && !h.finSeen && h.finSent
        case _ => h.finSeen && h.finSent)
    && (p.state != Closed && p.state != Listen ==> h.begun)
  }

  /** Receive-buffer conservation. */
  predicate RecvInv(p: Pcb, h: Hist) {
    h.begun ==>
      && p.rcv.wnd + |p.buf| == RECV_BUF_SIZE
      && h.accepted == h.read + p.buf
      && (h.synced && !h.finSeen ==> p.rcv.nxt == Wrap(p.irs + 1 + |h.accepted|))
  }

  /** SND.NXT counts what was sent; what is in flight fits a window, plus a FIN. */
  predicate SendInv(p: Pcb, h: Hist) {
    h.begun ==>
      && p.snd.nxt == Wrap(p.iss + 1 + |h.written| + (if h.finSent then 1 else 0))
      && InFlight(p) <= 65535 + (if h.finSent then 1 else 0)
      && (p.state == SynSent ==> p.snd.una == p.iss)
  }

  /** A queue entry holds a SYN at ISS, some text, or the FIN after all of it. */
  predicate EntryOk(e: QueueEntry, iss: u32, w: seq<u8>, finSent: bool) {
    && !e.flg.rst
    && (e.flg.syn || e.flg.fin || e.data != [])
    && (e.flg.syn ==> !e.flg.fin && e.data == [] && e.sn == iss)
    && (e.flg.fin ==> e.data == [] && finSent && e.sn == Wrap(iss + 1 + |w|))
    && (!e.flg.syn ==> e.flg.ack)
  }

  /** Exponential backoff: the timeout is one of six doublings, and the last sending came late enough for it. */
  predicate Paced(e: QueueEntry) {
    && e.rto in {DEFAULT_RTO, 2 * DEFAULT_RTO, 4 * DEFAULT_RTO, 8 * DEFAULT_RTO, 16 * DEFAULT_RTO, 32 * DEFAULT_RTO}
    && e.last + DEFAULT_RTO >= e.first + e.rto
  }

  predicate QueueInv(p: Pcb, h: Hist) {
    && (forall e :: e in p.queue ==> EntryOk(e, p.iss, h.written, h.finSent) && Paced(e))
    && (forall e :: e in p.queue && e.flg.syn && e.flg.ack ==> h.synced)
  }

  predicate Inv(p: Pcb, h: Hist) {
    Phase(p, h) && RecvInv(p, h) && SendInv(p, h) && QueueInv(p, h)
  }

  // ---------------------------------------------------------------- each stage keeps the invariant

  lemma CleanupIsSuffix(q: seq<QueueEntry>, una: u32)
    ensures exists k :: 0 <= k <= |q| && Cleanup(q, una) == q[k..]
    ensures forall e :: e in Cleanup(q, una) ==> e in q
  {
    if q == [] || una < q[0].End() {
      assert q == q[0..];
    } else {
      CleanupIsSuffix(q[1..], una);
      var k :| 0 <= k <= |q[1..]| && Cleanup(q[1..], una) == q[1..][k..];
      assert q[1..][k..] == q[k + 1..];
    }
  }

  /** What a stage may do to a block without disturbing the history. */
  lemma TakeAckKeeps(p: Pcb, h: Hist, seg: Segment)
    requires Inv(p, h) && Synchronized(p.state) && p.snd.una < seg.ack <= p.snd.nxt
    ensures Inv(TakeAck(p, seg), h) && InFlight(TakeAck(p, seg)) < InFlight(p)
  {
    CleanupIsSuffix(p.queue, seg.ack);
  }

  lemma AckOpenKeeps(p: Pcb, h: Hist, seg: Segment, opening: bool)
    requires Inv(p, h) && p.state in {Established, CloseWait, FinWait1, FinWait2}
    ensures Inv(AckOpen(p, seg, opening).pcb, h)
  {
    if p.snd.una < seg.ack <= p.snd.nxt {
      TakeAckKeeps(p, h, seg);
    }
  }

  lemma AckStageKeeps(p: Pcb, h: Hist, seg: Segment, local: Endpoint, remote: Endpoint, now: nat)
    requires Inv(p, h) && Synchronized(p.state)
    ensures Inv(AckStage(p, seg, local, remote, now).pcb, h)
    ensures AckStage(p, seg, local, remote, now).pcb.buf == p.buf
  {
    if p.state == SynReceived {
      AckOpenKeeps(p.(state := Established), h, seg, true);
    } else if p.state in {Established, CloseWait, FinWait1, FinWait2} {
      AckOpenKeeps(p, h, seg, false);
    }
  }

  lemma TextStageKeeps(p: Pcb, h: Hist, seg: Segment)
    requires Inv(p, h)
    ensures var q := TextStage(p, seg).pcb;
            |p.buf| <= |q.buf| && Inv(q, h.(accepted := h.accepted + q.buf[|p.buf|..]))
  {
    var q := TextStage(p, seg).pcb;
    if q != p {
      assert q.buf[|p.buf|..] == seg.data;
      WrapStep(p.irs + 1 + |h.accepted|, |seg.data|);
      assert h.accepted + seg.data == h.read + q.buf;
    } else {
      assert h.accepted + q.buf[|p.buf|..] == h.accepted;
    }
  }

  lemma FinStageKeeps(p: Pcb, h: Hist, seg: Segment, now: nat)
    requires Inv(p, h) && Synchronized(p.state)
    ensures var q := FinStage(p, seg, now).pcb;
            q.buf == p.buf && Inv(q, h.(finSeen := h.finSeen || PeerClosed(q.state)))
  {
  }

  /** The history after the text and FIN checks, which alone change it in a synchronized state. */
  function Advance(h: Hist, p: Pcb, q: Pcb): Hist {
    h.(accepted := h.accepted + (if |p.buf| <= |q.buf| then q.buf[|p.buf|..] else []),
       finSeen := h.finSeen || PeerClosed(q.state))
  }

  /** The text check alone leaves the state, the FIN check alone leaves the buffer. */
  lemma StagesSplit(a: Stage, seg: Segment, now: nat)
    ensures var t, q := TextStage(a.pcb, seg), AfterAck(a, seg, now).pcb;
      && t.pcb.state == a.pcb.state && t.pcb.snd == a.pcb.snd
      && |a.pcb.buf| <= |t.pcb.buf| == |q.buf| && t.pcb.buf == q.buf
      && q == (if t.verdict == Stop then t.pcb else FinStage(t.pcb, seg, now).pcb)
  {
  }

  lemma AfterAckKeeps(a: Stage, h: Hist, seg: Segment, now: nat)
    requires Inv(a.pcb, h) && Synchronized(a.pcb.state)
    ensures var q := AfterAck(a, seg, now).pcb; Inv(q, Advance(h, a.pcb, q)) && Synchronized(q.state)
  {
    var t, q := TextStage(a.pcb, seg), AfterAck(a, seg, now).pcb;
    StagesSplit(a, seg, now);
    TextStageKeeps(a.pcb, h, seg);
    var h1 := h.(accepted := h.accepted + t.pcb.buf[|a.pcb.buf|..]);
    if t.verdict == Stop {
      assert Advance(h, a.pcb, q) == h1;
    } else {
      FinStageKeeps(t.pcb, h1, seg, now);
      assert Advance(h, a.pcb, q) == h1.(finSeen := h1.finSeen || PeerClosed(q.state));
    }
  }

  /** In a synchronized state the observed history is the advanced one. */
  lemma ObserveIsAdvance(p: Pcb, h: Hist, ev: Event, q: Pcb)
    requires ev.Arrival? && Phase(p, h) && Synchronized(p.state) && Phase(q, Advance(h, p, q))
    ensures Observe(h, p, ev, q) == Advance(h, p, q)
  {
    assert h.written + [] == h.written && h.read + [] == h.read;
  }

  /** A block that only dropped to CLOSED, or did not change, keeps its history. */
  lemma IdleKeeps(p: Pcb, h: Hist, q: Pcb)
    requires Inv(p, h) && h.begun && (q == p || q == p.(state := Closed))
    ensures Inv(q, Advance(h, p, q))
  {
    assert q.buf[|p.buf|..] == [];
    assert h.accepted + [] == h.accepted;
    assert Advance(h, p, q) == h;
  }

  lemma AckedKeeps(p: Pcb, h: Hist, seg: Segment, local: Endpoint, remote: Endpoint, now: nat)
    requires Inv(p, h) && Synchronized(p.state)
    ensures var a := AckStage(p, seg, local, remote, now);
            var q := if a.verdict == Continue then AfterAck(a, seg, now).pcb else a.pcb;
            Inv(q, Advance(h, p, q))
  {
    var a := AckStage(p, seg, local, remote, now);
    AckStageKeeps(p, h, seg, local, remote, now);
    if a.verdict == Continue {
      AfterAckKeeps(a, h, seg, now);
    } else {
      IdleKeeps(a.pcb, h, a.pcb);
    }
  }

  lemma SynchronizedKeeps(p: Pcb, h: Hist, seg: Segment, local: Endpoint, remote: Endpoint, isn: u32, now: nat)
    requires Inv(p, h) && Synchronized(p.state)
    ensures var q := OnSynchronized(p, seg, local, remote, now).pcb;
            && Inv(q, Observe(h, p, Arrival(seg, local, remote, isn, now), q))
            && Observe(h, p, Arrival(seg, local, remote, isn, now), q) == Advance(h, p, q)
  {
    var q := OnSynchronized(p, seg, local, remote, now).pcb;
    if !Acceptable(p.rcv, seg) || seg.flg.rst || seg.flg.syn || !seg.flg.ack {
      IdleKeeps(p, h, q);
    } else {
      AckedKeeps(p, h, seg, local, remote, now);
    }
    ObserveIsAdvance(p, h, Arrival(seg, local, remote, isn, now), q);
  }

  /** The block that a SYN in SYN_SENT leaves, before it decides between ESTABLISHED and SYN_RECEIVED. */
  function SynTaken(p: Pcb, seg: Segment): Pcb {
    var q := p.(rcv := p.rcv.(nxt := Add32(seg.sn, 1)), irs := seg.sn);
    if seg.flg.ack then q.(snd := q.snd.(una := seg.ack), queue := Cleanup(q.queue, seg.ack)) else q
  }

  lemma SynTakenKeeps(p: Pcb, h: Hist, seg: Segment)
    requires Inv(p, h) && p.state == SynSent && (seg.flg.ack ==> p.iss < seg.ack <= p.snd.nxt)
    ensures Inv(SynTaken(p, seg).(state := Established), h.(synced := true))
  {
    CleanupIsSuffix(p.queue, seg.ack);
  }

  /** The send window plays no part in the invariant. */
  lemma WindowKeeps(p: Pcb, h: Hist, wnd: u16, wl1: u32, wl2: u32)
    requires Inv(p, h)
    ensures Inv(p.(snd := p.snd.(wnd := wnd, wl1 := wl1, wl2 := wl2)), h)
  {
  }

  /** A simultaneous open queues the SYN again. */
  lemma CrossedKeeps(p: Pcb, h: Hist, now: nat)
    requires Inv(p, h) && p.state == Established && h.written == h.accepted == []
    ensures Inv(Output(p.(state := SynReceived), SYN_ACK, [], now), h)
  {
  }

  /** An arrival that brought no text leaves the byte histories alone. */
  lemma ObserveNoText(p: Pcb, h: Hist, ev: Event, q: Pcb)
    requires ev.Arrival? && |q.buf| == |p.buf|
    ensures var o := Observe(h, p, ev, q); o.written == h.written && o.accepted == h.accepted && o.read == h.read
  {
    assert q.buf[|p.buf|..] == [];
  }

  lemma SynSentKeeps(p: Pcb, h: Hist, seg: Segment, local: Endpoint, remote: Endpoint, isn: u32, now: nat)
    requires Inv(p, h) && p.state == SynSent
    ensures var q := OnSynSent(p, seg, local, remote, now).pcb;
            Inv(q, Observe(h, p, Arrival(seg, local, remote, isn, now), q))
  {
    var q := OnSynSent(p, seg, local, remote, now).pcb;
    ObserveNoText(p, h, Arrival(seg, local, remote, isn, now), q);
    if (seg.flg.ack ==> p.iss < seg.ack <= p.snd.nxt) && !seg.flg.rst && seg.flg.syn {
      SynTakenKeeps(p, h, seg);
      var e := SynTaken(p, seg).(state := Established);
      WindowKeeps(e, h.(synced := true), seg.wnd, seg.sn, seg.ack);
      CrossedKeeps(e, h.(synced := true), now);
      assert Observe(h, p, Arrival(seg, local, remote, isn, now), q) == h.(synced := true);
    } else {
      assert Observe(h, p, Arrival(seg, local, remote, isn, now), q) == h;
    }
  }

  /** The block that takes a SYN starts out sound. */
  lemma TakeSynKeeps(p: Pcb, h: Hist, seg: Segment, local: Endpoint, remote: Endpoint, isn: u32, now: nat)
    requires Phase(p, h) && !h.begun
    ensures Inv(TakeSyn(p, seg, local, remote, isn, now), h.(used := true, begun := true, synced := true))
  {
    var e := QueueEntry(now, now, DEFAULT_RTO, isn, SYN_ACK, []);
    assert TakeSyn(p, seg, local, remote, isn, now).queue == [e];
  }

  lemma ListenKeeps(p: Pcb, h: Hist, seg: Segment, local: Endpoint, remote: Endpoint, isn: u32, now: nat)
    requires Inv(p, h) && p.state == Listen
    ensures var q := OnListen(p, seg, local, remote, isn, now).pcb;
            Inv(q, Observe(h, p, Arrival(seg, local, remote, isn, now), q))
  {
    var q := OnListen(p, seg, local, remote, isn, now).pcb;
    var o := Observe(h, p, Arrival(seg, local, remote, isn, now), q);
    ObserveNoText(p, h, Arrival(seg, local, remote, isn, now), q);
    if q == p {
      assert o == h;
    } else {
      TakeSynKeeps(p, h, seg, local, remote, isn, now);
      assert o == h.(used := true, begun := true, synced := true);
    }
  }

  lemma ArriveKeeps(p: Pcb, h: Hist, seg: Segment, local: Endpoint, remote: Endpoint, isn: u32, now: nat)
    requires Inv(p, h)
    ensures var q := Arrive(p, seg, local, remote, isn, now).pcb;
            Inv(q, Observe(h, p, Arrival(seg, local, remote, isn, now), q))
  {
    match p.state
    case Closed =>
      assert Observe(h, p, Arrival(seg, local, remote, isn, now), p) == h;
    case Listen => ListenKeeps(p, h, seg, local, remote, isn, now);
    case SynSent => SynSentKeeps(p, h, seg, local, remote, isn, now);
    case _ => SynchronizedKeeps(p, h, seg, local, remote, isn, now);
  }

  /** Emission keeps the pace: before the deadline at most five doublings fit. */
  lemma FirePaced(e: QueueEntry, now: nat)
    requires Paced(e) && now < e.first + RETRANS_DEADLINE
    ensures Paced(Fire(e, now))
  {
  }

  lemma TickKeeps(p: Pcb, h: Hist, now: nat)
    requires Inv(p, h)
    ensures Inv(Tick(p, now).pcb, h)
  {
    var q := Tick(p, now).pcb;
    forall e | e in q.queue
      ensures EntryOk(e, p.iss, h.written, h.finSent) && Paced(e) && (e.flg.syn && e.flg.ack ==> h.synced)
    {
      var i :| 0 <= i < |q.queue| && q.queue[i] == e;
      TickEntry(p, h, now, i);
    }
  }

  lemma TickEntry(p: Pcb, h: Hist, now: nat, i: nat)
    requires QueueInv(p, h) && i < |Tick(p, now).pcb.queue|
    ensures var e := Tick(p, now).pcb.queue[i];
      EntryOk(e, p.iss, h.written, h.finSent) && Paced(e) && (e.flg.syn && e.flg.ack ==> h.synced)
  {
    assert p.queue[i] in p.queue;
    if Tick(p, now).pcb.queue != p.queue {
      FirePaced(p.queue[i], now);
    }
  }

  /** Appending a sound, fresh entry to the queue while the history grows around it. */
  lemma OutputKeeps(p: Pcb, h: Hist, flg: Flags, data: Payload, now: nat, w: seq<u8>, finSent: bool)
    requires QueueInv(p, h) && !flg.syn && (flg.fin || data != [])
    requires h.written <= w && (h.finSent ==> finSent && w == h.written)
    requires EntryOk(QueueEntry(now, now, DEFAULT_RTO, p.snd.nxt, flg, data), p.iss, w, finSent)
    ensures QueueInv(Output(p, flg, data, now), h.(written := w, finSent := finSent))
  {
    forall e | e in p.queue
      ensures EntryOk(e, p.iss, w, finSent)
    {
    }
  }

  lemma SendFinKeeps(p: Pcb, h: Hist, next: State, now: nat)
    requires Inv(p, h) && h.begun && !h.finSent
    requires (next == FinWait1 && (p.state == SynReceived || p.state == Established))
             || (next == LastAck && p.state == CloseWait)
    ensures Inv(SendFin(p, next, now).pcb, h.(finSent := true))
  {
    WrapStep(p.iss + 1 + |h.written|, 1);
    FlightGrows(p.snd.nxt, p.snd.una, 1);
    OutputKeeps(p, h, ACK_FIN, [], now, h.written, true);
  }

  lemma CloseKeeps(p: Pcb, h: Hist, now: nat)
    requires Inv(p, h)
    ensures var q := Close(p, now).pcb; Inv(q, h.(finSent := h.finSent || SelfClosed(q.state)))
  {
    match p.state
    case SynReceived => SendFinKeeps(p, h, FinWait1, now);
    case Established => SendFinKeeps(p, h, FinWait1, now);
    case CloseWait => SendFinKeeps(p, h, LastAck, now);
    case _ =>
  }

  lemma FlightGrows(nxt: u32, una: u32, k: u32)
    requires Sub32(nxt, una) + k < M32
    ensures Sub32(Add32(nxt, k), una) == Sub32(nxt, una) + k
  {
  }

  /** What a pass of `send` does to the block. */
  lemma SendShape(p: Pcb, rest: seq<u8>, now: nat)
    ensures var chunk, q := Chunk(p, rest), Send(p, rest, now).pcb;
      if chunk == [] then q == p
      else
        var e := QueueEntry(now, now, DEFAULT_RTO, p.snd.nxt, ACK_PSH, chunk);
        CanSend(p.state) && InFlight(p) + |chunk| <= p.snd.wnd
        && q == p.(queue := p.queue + [e], snd := p.snd.(nxt := e.End()))
        && q == Output(p, ACK_PSH, chunk, now).(snd := q.snd)
  {
  }

  lemma SendKeeps(p: Pcb, h: Hist, rest: seq<u8>, now: nat)
    requires Inv(p, h)
    ensures Inv(Send(p, rest, now).pcb, h.(written := h.written + Chunk(p, rest)))
  {
    var chunk := Chunk(p, rest);
    SendShape(p, rest, now);
    if chunk == [] {
      assert h.(written := h.written + chunk) == h;
    } else {
      ChunkKeeps(p, h, chunk, now, Send(p, rest, now).pcb);
    }
  }

  lemma ChunkKeeps(p: Pcb, h: Hist, chunk: Payload, now: nat, q: Pcb)
    requires Inv(p, h) && CanSend(p.state) && chunk != []
    requires InFlight(p) + |chunk| <= 65535
    requires q == Output(p, ACK_PSH, chunk, now).(snd := p.snd.(nxt := Add32(p.snd.nxt, |chunk|)))
    ensures Inv(q, h.(written := h.written + chunk))
  {
    WrapStep(p.iss + 1 + |h.written|, |chunk|);
    FlightGrows(p.snd.nxt, p.snd.una, |chunk|);
    OutputKeeps(p, h, ACK_PSH, chunk, now, h.written + chunk, false);
  }

  lemma ReceiveKeeps(p: Pcb, h: Hist, room: nat)
    requires Inv(p, h)
    ensures Inv(Receive(p, room).pcb, h.(read := h.read + Taken(p, room)))
  {
    var n := |Taken(p, room)|;
    if n == 0 {
      assert h.read + [] == h.read;
    } else {
      assert p.buf == p.buf[..n] + p.buf[n..];
    }
  }

  /** What each call adds to the history. */
  lemma ObserveCall(p: Pcb, h: Hist, ev: Event)
    requires Phase(p, h) && (ev.Timer? || ev.UserClose? || ev.UserSend? || ev.UserReceive?)
    ensures var q := Step(p, ev).pcb;
            Observe(h, p, ev, q) ==
            match ev
            case UserClose(now) => h.(finSent := h.finSent || SelfClosed(q.state))
            case UserSend(rest, now) => h.(written := h.written + Chunk(p, rest))
            case UserReceive(room) => h.(read := h.read + Taken(p, room))
            case _ => h
  {
    assert h.written + [] == h.written && h.accepted + [] == h.accepted && h.read + [] == h.read;
  }

  lemma CallKeeps(c: Conn, ev: Event)
    requires Inv(c.p, c.h)
    requires ev.Timer? || ev.UserClose? || ev.UserSend? || ev.UserReceive?
    ensures Inv(Next(c, ev).p, Next(c, ev).h)
  {
    ObserveCall(c.p, c.h, ev);
    match ev
    case Timer(now) => TickKeeps(c.p, c.h, now);
    case UserClose(now) => CloseKeeps(c.p, c.h, now);
    case UserSend(rest, now) => SendKeeps(c.p, c.h, rest, now);
    case UserReceive(room) => ReceiveKeeps(c.p, c.h, room);
  }

  /** The two blocks agree on everything the invariant speaks of but the state. */
  predicate SameCore(p: Pcb, q: Pcb) {
    p.snd == q.snd && p.iss == q.iss && p.rcv == q.rcv && p.irs == q.irs && p.buf == q.buf && p.queue == q.queue
  }

  lemma SameCoreKeeps(p: Pcb, q: Pcb, h: Hist)
    requires Inv(p, h) && SameCore(p, q) && (q.state == p.state || q.state == Closed)
    ensures Inv(q, h)
  {
  }

  /** The events that only set a field, or abandon the block. */
  predicate Setting(ev: Event) {
    ev.UserBind? || ev.SetMode? || ev.SetMss? || ev.SetParent? || ev.Abort? || ev.Push? || ev.Pop?
  }

  lemma SettingShape(p: Pcb, h: Hist, ev: Event)
    requires Phase(p, h) && Setting(ev)
    ensures var q := Step(p, ev).pcb;
      SameCore(p, q) && (q.state == p.state || q.state == Closed) && Observe(h, p, ev, q) == h
  {
    assert h.written + [] == h.written && h.accepted + [] == h.accepted && h.read + [] == h.read;
  }

  lemma StartKeeps(c: Conn, ev: Event)
    requires Inv(c.p, c.h) && Legal(c, ev) && (ev.UserConnect? || ev.UserListen?)
    ensures Inv(Next(c, ev).p, Next(c, ev).h)
  {
    var h := c.h;
    assert h.written + [] == h.written && h.accepted + [] == h.accepted && h.read + [] == h.read;
    if ev.UserConnect? {
      ConnectKeeps(c.p, h, ev.local, ev.remote, ev.isn, ev.now);
    } else {
      assert Next(c, ev).h == h.(used := true);
    }
  }

  /** Every step of a once-opened block keeps the invariant. */
  lemma StepKeeps(c: Conn, ev: Event)
    requires Inv(c.p, c.h) && Legal(c, ev)
    ensures Inv(Next(c, ev).p, Next(c, ev).h)
  {
    if ev.Arrival? {
      ArriveKeeps(c.p, c.h, ev.seg, ev.local, ev.remote, ev.isn, ev.now);
    } else if ev.Timer? || ev.UserClose? || ev.UserSend? || ev.UserReceive? {
      CallKeeps(c, ev);
    } else if Setting(ev) {
      SettingShape(c.p, c.h, ev);
      SameCoreKeeps(c.p, Step(c.p, ev).pcb, c.h);
    } else {
      StartKeeps(c, ev);
    }
  }

  lemma ConnectKeeps(p: Pcb, h: Hist, local: Endpoint, remote: Endpoint, isn: u32, now: nat)
    requires Inv(p, h) && !h.used
    ensures Inv(StartConnect(p, local, remote, isn, true, now).pcb, h.(used := true, begun := true))
  {
  }

  // ---------------------------------------------------------------- histories only grow

  /** The later history continues the earlier one. */
  predicate Extends(p: Pcb, h: Hist, q: Pcb, g: Hist) {
    && (h.begun ==> g.begun && q.iss == p.iss)
    && (h.synced ==> g.synced && q.irs == p.irs)
    && h.written <= g.written && h.accepted <= g.accepted && h.read <= g.read
    && (h.finSeen ==> g.finSeen && g.accepted == h.accepted)
    && (h.finSent ==> g.finSent && g.written == h.written)
  }

  /** What no stage changes: ISS, IRS and the text already buffered. */
  predicate Frame(p: Pcb, q: Pcb) {
    q.iss == p.iss && q.irs == p.irs && p.buf <= q.buf
  }

  lemma AckFrame(p: Pcb, seg: Segment, local: Endpoint, remote: Endpoint, now: nat)
    ensures var q := AckStage(p, seg, local, remote, now).pcb;
            Frame(p, q) && q.buf == p.buf && (PeerClosed(p.state) ==> !TakesText(q.state))
  {
  }

  lemma AfterAckFrame(a: Stage, seg: Segment, now: nat)
    ensures var q := AfterAck(a, seg, now).pcb; Frame(a.pcb, q) && (!TakesText(a.pcb.state) ==> q.buf == a.pcb.buf)
  {
    var t := TextStage(a.pcb, seg).pcb;
    assert Frame(a.pcb, t);
    assert Frame(t, FinStage(t, seg, now).pcb);
  }

  lemma SynchronizedFrame(p: Pcb, seg: Segment, local: Endpoint, remote: Endpoint, now: nat)
    requires Synchronized(p.state)
    ensures var q := OnSynchronized(p, seg, local, remote, now).pcb;
            Frame(p, q) && (PeerClosed(p.state) ==> q.buf == p.buf)
  {
    AckFrame(p, seg, local, remote, now);
    AfterAckFrame(AckStage(p, seg, local, remote, now), seg, now);
  }

  lemma ArriveExtends(p: Pcb, h: Hist, seg: Segment, local: Endpoint, remote: Endpoint, isn: u32, now: nat)
    requires Inv(p, h)
    ensures var q := Arrive(p, seg, local, remote, isn, now).pcb;
            Extends(p, h, q, Observe(h, p, Arrival(seg, local, remote, isn, now), q))
  {
    var q := Arrive(p, seg, local, remote, isn, now).pcb;
    if Synchronized(p.state) {
      SynchronizedFrame(p, seg, local, remote, now);
    } else {
      ObserveNoText(p, h, Arrival(seg, local, remote, isn, now), q);
    }
    if h.finSeen {
      ObserveNoText(p, h, Arrival(seg, local, remote, isn, now), q);
    }
  }

  lemma StepExtends(c: Conn, ev: Event)
    requires Inv(c.p, c.h) && Legal(c, ev)
    ensures Extends(c.p, c.h, Next(c, ev).p, Next(c, ev).h)
  {
    if ev.Arrival? {
      ArriveExtends(c.p, c.h, ev.seg, ev.local, ev.remote, ev.isn, ev.now);
    } else if ev.Timer? || ev.UserClose? || ev.UserSend? || ev.UserReceive? {
      ObserveCall(c.p, c.h, ev);
    } else if Setting(ev) {
      SettingShape(c.p, c.h, ev);
    }
  }
}
