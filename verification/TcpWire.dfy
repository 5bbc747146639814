/** What a once-opened block ever puts on the wire. */
module TcpWire {
  import opened Words
  import opened Inet
  import opened TcpPcb
  import opened TcpConn
  import opened TcpQueue

  /** `data` is a piece of the stream `w`, at a sequence number `sn` of that piece. */
  ghost predicate InStream(iss: u32, w: seq<u8>, sn: u32, data: seq<u8>) {
    exists k: nat :: Place(iss, k) == sn && Piece(w, k, data)
  }

  /** `ack` acknowledges no more than `n` bytes. */
  ghost predicate AcksAtMost(irs: u32, n: nat, ack: u32) {
    exists k: nat :: k <= n && Place(irs, k) == ack
  }

  /** Text sits in its place in the written stream, a SYN is at ISS, a FIN after everything written, and an ACK
      (unless a FIN was processed) covers no more than the text accepted. */
  ghost predicate SegOk(seg: Segment, iss: u32, irs: u32, h: Hist) {
    && (seg.data != [] ==> !seg.flg.syn && !seg.flg.rst && InStream(iss, h.written, seg.sn, seg.data))
    && (seg.flg.syn ==> h.begun && !seg.flg.rst && seg.sn == iss)
    && (seg.flg.fin ==> h.finSent && seg.data == [] && seg.sn == Wrap(iss + 1 + |h.written|))
    && (seg.flg.ack && !seg.flg.rst ==> h.synced && (h.finSeen || AcksAtMost(irs, |h.accepted|, seg.ack)))
  }

  ghost predicate AllOk(sent: set<Packet>, p: Pcb, h: Hist) {
    forall pk :: pk in sent ==> SegOk(pk.seg, p.iss, p.irs, h)
  }

  /** RCV.NXT acknowledges exactly the text accepted. */
  lemma NextAcks(p: Pcb, h: Hist)
    requires RecvInv(p, h) && h.begun && h.synced && !h.finSeen
    ensures p.rcv.nxt == Place(p.irs, |h.accepted|) && AcksAtMost(p.irs, |h.accepted|, p.rcv.nxt)
  {
  }

  lemma InStreamGrows(iss: u32, w: seq<u8>, w': seq<u8>, sn: u32, data: seq<u8>)
    requires InStream(iss, w, sn, data) && w <= w'
    ensures InStream(iss, w', sn, data)
  {
    var k: nat :| Place(iss, k) == sn && Piece(w, k, data);
    assert w'[k..k + |data|] == w[k..k + |data|];
    assert Piece(w', k, data);
  }

  lemma AcksMore(irs: u32, n: nat, m: nat, ack: u32)
    requires AcksAtMost(irs, n, ack) && n <= m
    ensures AcksAtMost(irs, m, ack)
  {
    var k: nat :| k <= n && Place(irs, k) == ack;
  }

  /** A segment that was sound stays sound while the history grows. */
  lemma SegOkExtends(seg: Segment, p: Pcb, h: Hist, q: Pcb, g: Hist)
    requires SegOk(seg, p.iss, p.irs, h) && Extends(p, h, q, g)
    requires Phase(p, h)
    ensures SegOk(seg, q.iss, q.irs, g)
  {
    if seg.data != [] {
      InStreamGrows(p.iss, h.written, g.written, seg.sn, seg.data);
    }
    if seg.flg.ack && !seg.flg.rst && !g.finSeen {
      AcksMore(p.irs, |h.accepted|, |g.accepted|, seg.ack);
    }
  }

  lemma AllOkExtends(sent: set<Packet>, p: Pcb, h: Hist, q: Pcb, g: Hist)
    requires AllOk(sent, p, h) && Extends(p, h, q, g) && Phase(p, h)
    ensures AllOk(sent, q, g)
  {
    forall pk | pk in sent
      ensures SegOk(pk.seg, q.iss, q.irs, g)
    {
      SegOkExtends(pk.seg, p, h, q, g);
    }
  }

  lemma PlainAckOk(p: Pcb, h: Hist)
    requires RecvInv(p, h) && h.begun && h.synced
    ensures SegOk(Transmit(p, ACK, []).seg, p.iss, p.irs, h)
  {
    if !h.finSeen {
      NextAcks(p, h);
    }
  }

  /** The text of a queue entry is a piece of the stream, in its place. */
  lemma EntryInStream(p: Pcb, h: Hist, i: nat)
    requires Exact(p, h) && i < |p.queue| && p.queue[i].data != []
    ensures InStream(p.iss, h.written, p.queue[i].sn, p.queue[i].data)
  {
    var at: seq<nat> :| Tiles(p.queue, at, p.snd.una, Top(p, h)) && Laid(p.queue, at, p.iss, h.written, h.finSent);
    SitsInStream(p.queue[i], at[i], p.iss, h.written, h.finSent);
  }

  lemma SitsInStream(e: QueueEntry, at: nat, iss: u32, w: seq<u8>, finSent: bool)
    requires SitsAt(e, at, iss, w, finSent) && e.data != []
    ensures InStream(iss, w, e.sn, e.data)
  {
    var k: nat := at - iss - 1;
    assert Place(iss, k) == e.sn && Piece(w, k, e.data);
  }

  lemma TickSends(p: Pcb, h: Hist, now: nat)
    requires Inv(p, h) && ExactOnceBegun(p, h)
    ensures AllOk(Tick(p, now).sent, Tick(p, now).pcb, h)
  {
    forall pk | pk in Tick(p, now).sent
      ensures SegOk(pk.seg, p.iss, p.irs, h)
    {
      var i := WhichResent(p, now, pk);
      ResendOk(p, h, i);
    }
    TickFrame(p, now);
  }

  lemma TickFrame(p: Pcb, now: nat)
    ensures Tick(p, now).pcb.iss == p.iss && Tick(p, now).pcb.irs == p.irs
  {
  }

  lemma WhichResent(p: Pcb, now: nat, pk: Packet) returns (i: nat)
    requires pk in Tick(p, now).sent
    ensures i < |p.queue| && pk == Resend(p, p.queue[i])
  {
    var e :| e in p.queue && pk == Resend(p, e);
    i :| i < |p.queue| && p.queue[i] == e;
  }

  lemma ResendOk(p: Pcb, h: Hist, i: nat)
    requires Inv(p, h) && ExactOnceBegun(p, h) && i < |p.queue|
    ensures SegOk(Resend(p, p.queue[i]).seg, p.iss, p.irs, h)
  {
    var e := p.queue[i];
    assert e in p.queue && EntryOk(e, p.iss, h.written, h.finSent);
    if e.data != [] {
      EntryInStream(p, h, i);
    }
    if e.flg.ack && !h.finSeen {
      AckedEntrySynced(p, h, e);
      NextAcks(p, h);
    }
  }

  lemma AckedEntrySynced(p: Pcb, h: Hist, e: QueueEntry)
    requires Inv(p, h) && ExactOnceBegun(p, h) && e in p.queue && e.flg.ack
    ensures h.begun && h.synced
  {
    assert EntryOk(e, p.iss, h.written, h.finSent);
    var i :| 0 <= i < |p.queue| && p.queue[i] == e;
    if e.data != [] {
      EntryInStream(p, h, i);
    }
  }

  lemma SendSends(p: Pcb, h: Hist, rest: seq<u8>, now: nat)
    requires Inv(p, h)
    ensures AllOk(Send(p, rest, now).sent, Send(p, rest, now).pcb, h.(written := h.written + Chunk(p, rest)))
  {
    if CanSend(p.state) {
      var chunk := Chunk(p, rest);
      PlainAckOk(p, h);
      assert Place(p.iss, |h.written|) == p.snd.nxt && Piece(h.written + chunk, |h.written|, chunk);
    }
  }

  lemma TextSends(p: Pcb, h: Hist, seg: Segment)
    requires Inv(p, h) && Synchronized(p.state)
    ensures var t := TextStage(p, seg); AllOk(t.sent, t.pcb, Advance(h, p, t.pcb))
  {
    var t := TextStage(p, seg).pcb;
    TextStageKeeps(p, h, seg);
    assert t.state == p.state;
    PlainAckOk(t, Advance(h, p, t));
  }

  lemma FinSends(p: Pcb, h: Hist, seg: Segment, now: nat)
    requires Inv(p, h) && Synchronized(p.state)
    ensures var f := FinStage(p, seg, now); AllOk(f.sent, f.pcb, h.(finSeen := h.finSeen || PeerClosed(f.pcb.state)))
  {
  }

  lemma AfterAckSends(a: Stage, h: Hist, seg: Segment, now: nat)
    requires Inv(a.pcb, h) && Synchronized(a.pcb.state) && a.sent == {}
    ensures var r := AfterAck(a, seg, now); AllOk(r.sent, r.pcb, Advance(h, a.pcb, r.pcb))
  {
    var r, t := AfterAck(a, seg, now), TextStage(a.pcb, seg);
    var h1, g := Advance(h, a.pcb, t.pcb), Advance(h, a.pcb, r.pcb);
    StagesSplit(a, seg, now);
    TextStageKeeps(a.pcb, h, seg);
    assert PeerClosed(a.pcb.state) ==> h.finSeen;
    assert h1 == h.(accepted := h.accepted + t.pcb.buf[|a.pcb.buf|..]);
    TextSends(a.pcb, h, seg);
    if t.verdict == Stop {
      assert r.sent == t.sent;
    } else {
      var f := FinStage(t.pcb, seg, now);
      FinSends(t.pcb, h1, seg, now);
      FinStageKeeps(t.pcb, h1, seg, now);
      assert g == h1.(finSeen := h1.finSeen || PeerClosed(r.pcb.state));
      FinExtends(t.pcb, h1, seg, now, g);
      AllOkExtends(t.sent, t.pcb, h1, r.pcb, g);
      assert r.sent == t.sent + f.sent;
    }
  }

  lemma FinExtends(p: Pcb, h: Hist, seg: Segment, now: nat, g: Hist)
    requires g == h.(finSeen := h.finSeen || g.finSeen)
    ensures Extends(p, h, FinStage(p, seg, now).pcb, g)
  {
  }

  lemma SynchronizedSends(p: Pcb, h: Hist, seg: Segment, local: Endpoint, remote: Endpoint, isn: u32, now: nat)
    requires Inv(p, h) && Synchronized(p.state)
    ensures var r := OnSynchronized(p, seg, local, remote, now); AllOk(r.sent, r.pcb, Advance(h, p, r.pcb))
  {
    if !Passes(p, seg) {
      RefusedSends(p, h, seg, local, remote, now);
    } else if AckStage(p, seg, local, remote, now).verdict == Continue {
      PassedSends(p, h, seg, local, remote, now);
    } else {
      StoppedSends(p, h, seg, local, remote, now);
    }
  }

  /** A segment that the first four checks refuse. */
  lemma RefusedSends(p: Pcb, h: Hist, seg: Segment, local: Endpoint, remote: Endpoint, now: nat)
    requires Inv(p, h) && Synchronized(p.state) && !Passes(p, seg)
    ensures var r := OnSynchronized(p, seg, local, remote, now); AllOk(r.sent, r.pcb, Advance(h, p, r.pcb))
  {
    PlainAckOk(p, h);
    IdleKeeps(p, h, OnSynchronized(p, seg, local, remote, now).pcb);
  }

  /** One whose ACK leaves the text and the FIN to be looked at. */
  lemma PassedSends(p: Pcb, h: Hist, seg: Segment, local: Endpoint, remote: Endpoint, now: nat)
    requires Inv(p, h) && Synchronized(p.state) && AckStage(p, seg, local, remote, now).verdict == Continue
    ensures var r := AfterAck(AckStage(p, seg, local, remote, now), seg, now);
      AllOk(r.sent, r.pcb, Advance(h, p, r.pcb))
  {
    AckStageKeeps(p, h, seg, local, remote, now);
    AckFrame(p, seg, local, remote, now);
    AckSendsNothing(p, seg, local, remote, now);
    AfterAckSends(AckStage(p, seg, local, remote, now), h, seg, now);
  }

  lemma AckSendsNothing(p: Pcb, seg: Segment, local: Endpoint, remote: Endpoint, now: nat)
    requires Synchronized(p.state)
    ensures var a := AckStage(p, seg, local, remote, now);
      a.verdict == Continue ==> a.sent == {} && Synchronized(a.pcb.state)
  {
  }

  lemma StoppedSends(p: Pcb, h: Hist, seg: Segment, local: Endpoint, remote: Endpoint, now: nat)
    requires Inv(p, h) && Synchronized(p.state) && AckStage(p, seg, local, remote, now).verdict != Continue
    ensures var a := AckStage(p, seg, local, remote, now); AllOk(a.sent, a.pcb, Advance(h, p, a.pcb))
  {
    var a := AckStage(p, seg, local, remote, now);
    PlainAckOk(p, h);
    AckStageKeeps(p, h, seg, local, remote, now);
    IdleKeeps(a.pcb, h, a.pcb);
    AckStops(p, seg, local, remote, now);
  }

  /** An ACK that ends the processing left the block as it was, or closed it. */
  lemma AckStops(p: Pcb, seg: Segment, local: Endpoint, remote: Endpoint, now: nat)
    requires Synchronized(p.state)
    ensures var a := AckStage(p, seg, local, remote, now); a.verdict != Continue ==>
      && (a.pcb == p || a.pcb == p.(state := Closed) || a.pcb == p.(state := Established))
      && forall pk :: pk in a.sent ==> pk.seg.flg.rst || pk.seg == Transmit(p, ACK, []).seg
  {
  }

  lemma OpeningSends(p: Pcb, h: Hist, seg: Segment, local: Endpoint, remote: Endpoint, isn: u32, now: nat)
    requires Inv(p, h) && (p.state == SynSent || p.state == Listen)
    ensures var r := Arrive(p, seg, local, remote, isn, now);
            AllOk(r.sent, r.pcb, h.(begun := true, synced := true))
  {
    assert Place(seg.sn, 0) == Add32(seg.sn, 1);
    assert AcksAtMost(seg.sn, |h.accepted|, Add32(seg.sn, 1));
  }

  lemma ArriveSends(p: Pcb, h: Hist, seg: Segment, local: Endpoint, remote: Endpoint, isn: u32, now: nat)
    requires Inv(p, h)
    ensures var r := Arrive(p, seg, local, remote, isn, now);
            AllOk(r.sent, r.pcb, Observe(h, p, Arrival(seg, local, remote, isn, now), r.pcb))
  {
    var r := Arrive(p, seg, local, remote, isn, now);
    var ev := Arrival(seg, local, remote, isn, now);
    if Synchronized(p.state) {
      SynchronizedKeeps(p, h, seg, local, remote, isn, now);
      SynchronizedSends(p, h, seg, local, remote, isn, now);
    } else if p.state != Closed && Synchronized(r.pcb.state) {
      ObserveNoText(p, h, ev, r.pcb);
      OpeningSends(p, h, seg, local, remote, isn, now);
    }
  }

  lemma CloseSends(p: Pcb, h: Hist, now: nat)
    requires Inv(p, h)
    ensures var r := Close(p, now); AllOk(r.sent, r.pcb, h.(finSent := h.finSent || SelfClosed(r.pcb.state)))
  {
    if Synchronized(p.state) {
      PlainAckOk(p, h);
    }
  }

  lemma CallSends(c: Conn, ev: Event)
    requires Inv(c.p, c.h) && ExactOnceBegun(c.p, c.h) && (ev.Timer? || ev.UserSend? || ev.UserClose?)
    ensures AllOk(Step(c.p, ev).sent, Next(c, ev).p, Next(c, ev).h)
  {
    ObserveCall(c.p, c.h, ev);
    match ev
    case Timer(now) => TickSends(c.p, c.h, now);
    case UserSend(rest, now) => SendSends(c.p, c.h, rest, now);
    case UserClose(now) => CloseSends(c.p, c.h, now);
  }

  /** Every packet of every step is sound for the history after the step. */
  lemma StepSends(c: Conn, ev: Event)
    requires Inv(c.p, c.h) && ExactOnceBegun(c.p, c.h) && Legal(c, ev)
    ensures AllOk(Step(c.p, ev).sent, Next(c, ev).p, Next(c, ev).h)
  {
    if ev.Arrival? {
      ArriveSends(c.p, c.h, ev.seg, ev.local, ev.remote, ev.isn, ev.now);
    } else if ev.Timer? || ev.UserSend? || ev.UserClose? {
      CallSends(c, ev);
    } else {
      assert ev.UserConnect? || Step(c.p, ev).sent == {};
    }
  }
}
