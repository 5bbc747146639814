/** Exactness of the retransmission queue, kept by every event, through wrap-around. */
module TcpQueue {
  import opened Words
  import opened Inet
  import opened TcpPcb
  import opened TcpConn

  /** Where SND.NXT would be if sequence numbers did not wrap. */
  function Top(p: Pcb, h: Hist): nat {
    p.iss + 1 + |h.written| + (if h.finSent then 1 else 0)
  }

  /** Entry `e` sits at the unwrapped sequence number `k`: a SYN at ISS, a piece of the stream in its place, or the FIN
      after all of it. */
  predicate SitsAt(e: QueueEntry, k: nat, iss: u32, w: seq<u8>, finSent: bool) {
    && e.sn == Wrap(k) && e.Consume() > 0
    && (e.flg.syn ==> k == iss && e.data == [])
    && (e.flg.fin ==> k == iss + 1 + |w| && e.data == [] && finSent)
    && (e.data != [] ==> iss < k && k - iss - 1 + |e.data| <= |w| && e.data == w[k - iss - 1..k - iss - 1 + |e.data|])
  }

  /** Entries follow each other without gap or overlap, from the one that holds `una` up to `top`; only the SYN may be
      queued twice, by a simultaneous open. Entry `i` sits at `at[i]`. */
  ghost predicate Tiles(q: seq<QueueEntry>, at: seq<nat>, una: nat, top: nat) {
    && |at| == |q|
    && una <= top
    && (q == [] <==> una == top)
    && (q != [] ==> at[0] <= una < at[0] + q[0].Consume() && at[|q| - 1] + q[|q| - 1].Consume() == top)
    && (forall i, j :: 0 <= i && j == i + 1 && j < |q| ==>
          if q[j].flg.syn then q[i].flg.syn && at[j] == at[i] else at[j] == at[i] + q[i].Consume())
  }

  predicate Laid(q: seq<QueueEntry>, at: seq<nat>, iss: u32, w: seq<u8>, finSent: bool) {
    |at| == |q| && forall i :: 0 <= i < |q| ==> SitsAt(q[i], at[i], iss, w, finSent)
  }

  /** The queue holds exactly the sequence space from `una` to `top`. */
  ghost predicate Queues(q: seq<QueueEntry>, una: nat, top: nat, iss: u32, w: seq<u8>, finSent: bool) {
    exists at: seq<nat> :: Tiles(q, at, una, top) && Laid(q, at, iss, w, finSent)
  }

  /** The queue of a block that owns sequence space, wrapped or not: SND.UNA itself never wraps, what is in flight fits
      a window and a FIN, and the queue is exactly what is in flight. */
  ghost predicate Exact(p: Pcb, h: Hist) {
    && p.iss <= p.snd.una <= Top(p, h) <= p.snd.una + 65536
    && p.snd.nxt == Wrap(Top(p, h))
    && (p.state == SynSent ==> |p.queue| == 1)
    && Queues(p.queue, p.snd.una, Top(p, h), p.iss, h.written, h.finSent)
  }

  ghost predicate ExactOnceBegun(p: Pcb, h: Hist) {
    h.begun ==> Exact(p, h)
  }

  /** With so little in flight, SND.NXT has wrapped exactly if it is below SND.UNA. */
  lemma WrappedIff(una: u32, top: nat, nxt: u32)
    requires una <= top <= una + 65536 && nxt == Wrap(top)
    ensures nxt < una <==> top >= M32
    ensures top < M32 ==> nxt == top
    ensures una == nxt <==> una == top
  {
  }

  /** Each entry is at its number and takes some of the sequence space, a SYN one. */
  predicate Numbered(q: seq<QueueEntry>, at: seq<nat>) {
    |at| == |q|
    && forall i :: 0 <= i < |q| ==>
         q[i].sn == Wrap(at[i]) && q[i].Consume() > 0 && (q[i].flg.syn ==> q[i].Consume() == 1)
  }

  /** Entries end in order. */
  lemma {:induction false} EndsRise(q: seq<QueueEntry>, at: seq<nat>, una: nat, top: nat, i: nat, j: nat)
    requires Tiles(q, at, una, top) && Numbered(q, at) && i <= j < |q|
    ensures at[i] + q[i].Consume() <= at[j] + q[j].Consume()
    decreases j
  {
    if i < j {
      EndsRise(q, at, una, top, i, j - 1);
    }
  }

  /** What follows the first entry is a tiling. */
  lemma TilesRest(q: seq<QueueEntry>, at: seq<nat>, una: nat, top: nat)
    requires Tiles(q, at, una, top) && Numbered(q, at) && |q| > 1
    ensures Numbered(q[1..], at[1..]) && at[0] <= at[1] <= at[0] + q[0].Consume()
    ensures Tiles(q[1..], at[1..], at[1], top)
  {
    EndsRise(q, at, una, top, 1, |q| - 1);
  }

  /** Trimming a queue that has not wrapped to a new SND.UNA drops a prefix, and leaves a tiling from there. */
  lemma {:induction false} CleanupTiles(q: seq<QueueEntry>, at: seq<nat>, una: nat, ack: u32, top: nat) returns (k: nat)
    requires Tiles(q, at, una, top) && Numbered(q, at) && una <= ack <= top < M32
    ensures k <= |q| && Cleanup(q, ack) == q[k..] && Tiles(q[k..], at[k..], ack, top)
    decreases |q|
  {
    k := 0;
    assert q[0..] == q && at[0..] == at;
    if q != [] {
      EndsRise(q, at, una, top, 0, |q| - 1);
      assert q[0].End() == at[0] + q[0].Consume();
      if ack >= q[0].End() {
        k := CleanupRest(q, at, una, ack, top);
      }
    }
  }

  lemma {:induction false} CleanupRest(q: seq<QueueEntry>, at: seq<nat>, una: nat, ack: u32, top: nat) returns (k: nat)
    requires Tiles(q, at, una, top) && Numbered(q, at) && q != []
    requires q[0].End() == at[0] + q[0].Consume() <= ack <= top < M32
    ensures k <= |q| && Cleanup(q, ack) == q[k..] && Tiles(q[k..], at[k..], ack, top)
    decreases |q|, 0
  {
    if |q| == 1 {
      k := 1;
      assert Cleanup(q[1..], ack) == [];
    } else {
      TilesRest(q, at, una, top);
      var m := CleanupTiles(q[1..], at[1..], at[1], ack, top);
      k := m + 1;
      assert q[1..][m..] == q[k..] && at[1..][m..] == at[k..];
    }
  }

  lemma LaidNumbered(q: seq<QueueEntry>, at: seq<nat>, iss: u32, w: seq<u8>, finSent: bool)
    requires Laid(q, at, iss, w, finSent)
    ensures Numbered(q, at)
  {
    forall i | 0 <= i < |q|
      ensures q[i].sn == Wrap(at[i]) && q[i].Consume() > 0 && (q[i].flg.syn ==> q[i].Consume() == 1)
    {
      assert SitsAt(q[i], at[i], iss, w, finSent);
    }
  }

  lemma QueuesTrim(q: seq<QueueEntry>, una: nat, ack: u32, top: nat, iss: u32, w: seq<u8>, finSent: bool)
    requires Queues(q, una, top, iss, w, finSent) && una <= ack <= top < M32
    ensures Queues(Cleanup(q, ack), ack, top, iss, w, finSent)
  {
    var at: seq<nat> :| Tiles(q, at, una, top) && Laid(q, at, iss, w, finSent);
    LaidNumbered(q, at, iss, w, finSent);
    var k := CleanupTiles(q, at, una, ack, top);
    assert Laid(q[k..], at[k..], iss, w, finSent);
  }

  /** One more entry at SND.NXT. */
  lemma AppendTiles(q: seq<QueueEntry>, at: seq<nat>, e: QueueEntry, una: nat, top: nat)
    requires Tiles(q, at, una, top) && !e.flg.syn && e.Consume() > 0
    ensures Tiles(q + [e], at + [top], una, top + e.Consume())
  {
    if q != [] {
      assert (q + [e])[|q| - 1] == q[|q| - 1] && (at + [top])[|q| - 1] == at[|q| - 1];
    }
  }

  lemma LaidGrows(q: seq<QueueEntry>, at: seq<nat>, iss: u32, w: seq<u8>, fin: bool, w': seq<u8>, fin': bool)
    requires Laid(q, at, iss, w, fin) && w <= w' && (fin ==> fin' && w' == w)
    ensures Laid(q, at, iss, w', fin')
  {
    forall i | 0 <= i < |q|
      ensures SitsAt(q[i], at[i], iss, w', fin')
    {
      assert SitsAt(q[i], at[i], iss, w, fin);
      if q[i].data != [] {
        var k := at[i] - iss - 1;
        assert w'[k..k + |q[i].data|] == w[k..k + |q[i].data|];
      }
    }
  }

  lemma QueuesAppend(q: seq<QueueEntry>, e: QueueEntry, una: nat, top: nat, iss: u32, w: seq<u8>, fin: bool,
                     w': seq<u8>, fin': bool)
    requires Queues(q, una, top, iss, w, fin) && !e.flg.syn && SitsAt(e, top, iss, w', fin')
    requires w <= w' && (fin ==> fin' && w' == w)
    ensures Queues(q + [e], una, top + e.Consume(), iss, w', fin')
  {
    var at: seq<nat> :| Tiles(q, at, una, top) && Laid(q, at, iss, w, fin);
    AppendTiles(q, at, e, una, top);
    LaidGrows(q, at, iss, w, fin, w', fin');
    assert Laid(q + [e], at + [top], iss, w', fin');
  }

  predicate SameShape(q: seq<QueueEntry>, r: seq<QueueEntry>) {
    |q| == |r| && forall i :: 0 <= i < |q| ==> r[i].sn == q[i].sn && r[i].flg == q[i].flg && r[i].data == q[i].data
  }

  /** A tiling depends on nothing but the place, the flags and the text of the entries. */
  lemma QueuesShape(q: seq<QueueEntry>, r: seq<QueueEntry>, una: nat, top: nat, iss: u32, w: seq<u8>, finSent: bool)
    requires Queues(q, una, top, iss, w, finSent) && SameShape(q, r)
    ensures Queues(r, una, top, iss, w, finSent)
  {
    var at: seq<nat> :| Tiles(q, at, una, top) && Laid(q, at, iss, w, finSent);
    forall i | 0 <= i < |r|
      ensures SitsAt(r[i], at[i], iss, w, finSent)
    {
      assert SitsAt(q[i], at[i], iss, w, finSent);
    }
    assert Laid(r, at, iss, w, finSent);
    assert Tiles(r, at, una, top);
  }

  // ---------------------------------------------------------------- every step keeps it

  /** What a step leaves of the sending side: the same queue, or the queue trimmed to a new ACK. */
  predicate Trimmed(p: Pcb, q: Pcb, ack: u32) {
    && q.iss == p.iss && q.snd.nxt == p.snd.nxt && q.state != SynSent
    && (|| (q.snd.una == p.snd.una && q.queue == p.queue)
        || (p.snd.una < ack <= p.snd.nxt && q.snd.una == ack && q.queue == Cleanup(p.queue, ack)))
  }

  lemma TrimmedExact(p: Pcb, h: Hist, q: Pcb, ack: u32, g: Hist)
    requires Exact(p, h) && Trimmed(p, q, ack) && g.written == h.written && g.finSent == h.finSent
    ensures Exact(q, g)
  {
    if q.queue != p.queue || q.snd.una != p.snd.una {
      WrappedIff(p.snd.una, Top(p, h), p.snd.nxt);
      QueuesTrim(p.queue, p.snd.una, ack, Top(p, h), p.iss, h.written, h.finSent);
    }
  }

  lemma AckTrims(p: Pcb, seg: Segment, local: Endpoint, remote: Endpoint, now: nat)
    requires Synchronized(p.state)
    ensures Trimmed(p, AckStage(p, seg, local, remote, now).pcb, seg.ack)
  {
  }

  lemma AfterAckTrims(p: Pcb, a: Stage, seg: Segment, now: nat)
    requires Trimmed(p, a.pcb, seg.ack)
    ensures Trimmed(p, AfterAck(a, seg, now).pcb, seg.ack)
  {
    var t := TextStage(a.pcb, seg).pcb;
    assert Trimmed(p, t, seg.ack);
    assert Trimmed(p, FinStage(t, seg, now).pcb, seg.ack);
  }

  lemma SynchronizedTrims(p: Pcb, seg: Segment, local: Endpoint, remote: Endpoint, now: nat)
    requires Synchronized(p.state)
    ensures Trimmed(p, OnSynchronized(p, seg, local, remote, now).pcb, seg.ack)
  {
    AckTrims(p, seg, local, remote, now);
    AfterAckTrims(p, AckStage(p, seg, local, remote, now), seg, now);
  }

  lemma SynchronizedExact(p: Pcb, h: Hist, seg: Segment, local: Endpoint, remote: Endpoint, isn: u32, now: nat)
    requires Inv(p, h) && Synchronized(p.state) && Exact(p, h)
    ensures var q := OnSynchronized(p, seg, local, remote, now).pcb;
            Exact(q, Observe(h, p, Arrival(seg, local, remote, isn, now), q))
  {
    var q := OnSynchronized(p, seg, local, remote, now).pcb;
    SynchronizedKeeps(p, h, seg, local, remote, isn, now);
    SynchronizedTrims(p, seg, local, remote, now);
    TrimmedExact(p, h, q, seg.ack, Advance(h, p, q));
  }

  /** A simultaneous open queues the SYN a second time. */
  lemma CrossedExact(p: Pcb, h: Hist, q: Pcb, now: nat, g: Hist)
    requires p.state == SynSent && Exact(p, h) && p.snd.una == p.iss
    requires h.written == g.written == [] && h.finSent == g.finSent == false
    requires q.iss == p.iss && q.snd == p.snd && q.state == SynReceived
    requires q.queue == p.queue + [QueueEntry(now, now, DEFAULT_RTO, p.iss, SYN_ACK, [])]
    ensures Exact(q, g)
  {
    assert p.queue == [p.queue[0]] && q.queue == [p.queue[0], q.queue[1]];
    assert Top(p, h) == p.iss + 1;
    QueuesTwice(p.queue[0], q.queue[1], p.iss);
  }

  lemma QueuesTwice(d: QueueEntry, e: QueueEntry, iss: u32)
    requires Queues([d], iss, iss + 1, iss, [], false) && e.flg.syn && e.data == [] && e.sn == iss && !e.flg.fin
    ensures Queues([d, e], iss, iss + 1, iss, [], false)
  {
    var at: seq<nat> :| Tiles([d], at, iss, iss + 1) && Laid([d], at, iss, [], false);
    assert SitsAt([d][0], at[0], iss, [], false) && SitsAt(e, iss, iss, [], false);
    assert Laid([d, e], [at[0], iss], iss, [], false);
    assert Tiles([d, e], [at[0], iss], iss, iss + 1);
  }

  lemma SynSentExact(p: Pcb, h: Hist, seg: Segment, local: Endpoint, remote: Endpoint, isn: u32, now: nat)
    requires Inv(p, h) && p.state == SynSent && Exact(p, h)
    ensures var q := OnSynSent(p, seg, local, remote, now).pcb;
            Exact(q, Observe(h, p, Arrival(seg, local, remote, isn, now), q))
  {
    var q := OnSynSent(p, seg, local, remote, now).pcb;
    var g := Observe(h, p, Arrival(seg, local, remote, isn, now), q);
    ObserveNoText(p, h, Arrival(seg, local, remote, isn, now), q);
    if q.state == SynReceived {
      CrossedExact(p, h, q, now, g);
    } else if q.state != SynSent {
      TrimmedExact(p, h, q, seg.ack, g);
    }
  }

  lemma TickShape(p: Pcb, now: nat)
    ensures var q := Tick(p, now).pcb; SameShape(p.queue, q.queue) && q.snd == p.snd && q.iss == p.iss
    ensures Tick(p, now).pcb.state == p.state || Tick(p, now).pcb.state == Closed
  {
  }

  lemma SameShapeExact(p: Pcb, h: Hist, q: Pcb)
    requires Exact(p, h) && SameShape(p.queue, q.queue) && q.snd == p.snd && q.iss == p.iss
    requires q.state == p.state || q.state == Closed
    ensures Exact(q, h)
  {
    QueuesShape(p.queue, q.queue, p.snd.una, Top(p, h), p.iss, h.written, h.finSent);
  }

  lemma TimerExact(p: Pcb, h: Hist, now: nat)
    requires Exact(p, h)
    ensures Exact(Tick(p, now).pcb, h)
  {
    TickShape(p, now);
    SameShapeExact(p, h, Tick(p, now).pcb);
  }

  /** Appending one entry at SND.NXT. */
  lemma AppendExact(p: Pcb, h: Hist, e: QueueEntry, q: Pcb, g: Hist)
    requires Exact(p, h) && !e.flg.syn && SitsAt(e, Top(p, h), p.iss, g.written, g.finSent)
    requires h.written <= g.written && (h.finSent ==> g.finSent && g.written == h.written)
    requires q.iss == p.iss && q.queue == p.queue + [e] && q.snd == p.snd.(nxt := e.End()) && q.state != SynSent
    requires Top(q, g) == Top(p, h) + e.Consume() && InFlight(q) <= 65536
    ensures Exact(q, g)
  {
    WrapStep(Top(p, h), e.Consume());
    QueuesAppend(p.queue, e, p.snd.una, Top(p, h), p.iss, h.written, h.finSent, g.written, g.finSent);
    FlightIsPlain(q.snd.una, Top(q, g), q.snd.nxt);
  }

  /** What is in flight, counted modulo 2^32, is what lies between SND.UNA and the top. */
  lemma FlightIsPlain(una: u32, top: nat, nxt: u32)
    requires una <= top < una + M32 && nxt == Wrap(top)
    ensures Sub32(nxt, una) == top - una
  {
  }

  lemma SendExact(p: Pcb, h: Hist, rest: seq<u8>, now: nat, g: Hist)
    requires Inv(p, h) && h.begun && Exact(p, h)
    requires g.written == h.written + Chunk(p, rest) && g.finSent == h.finSent
    ensures Exact(Send(p, rest, now).pcb, g)
  {
    var chunk := Chunk(p, rest);
    SendShape(p, rest, now);
    if chunk != [] {
      SendFlight(p, h, rest, now);
      ChunkExact(p, h, QueueEntry(now, now, DEFAULT_RTO, p.snd.nxt, ACK_PSH, chunk), Send(p, rest, now).pcb, g);
    }
  }

  lemma SendFlight(p: Pcb, h: Hist, rest: seq<u8>, now: nat)
    requires Inv(p, h) && h.begun
    ensures InFlight(Send(p, rest, now).pcb) <= 65536
    ensures Chunk(p, rest) != [] ==> !h.finSent && p.state != SynSent
  {
    SendKeeps(p, h, rest, now);
  }

  lemma ChunkExact(p: Pcb, h: Hist, e: QueueEntry, q: Pcb, g: Hist)
    requires Exact(p, h) && !h.finSent && e.sn == p.snd.nxt && e.data != [] && !e.flg.syn && !e.flg.fin
    requires g.written == h.written + e.data && !g.finSent && InFlight(q) <= 65536
    requires q == p.(queue := p.queue + [e], snd := p.snd.(nxt := e.End())) && p.state != SynSent
    ensures Exact(q, g)
  {
    assert g.written[|h.written|..|h.written| + |e.data|] == e.data;
    AppendExact(p, h, e, q, g);
  }

  lemma CloseExact(p: Pcb, h: Hist, now: nat, g: Hist)
    requires Exact(p, h) && (SelfClosed(p.state) ==> h.finSent)
    requires g.written == h.written && g.finSent == (h.finSent || SelfClosed(Close(p, now).pcb.state))
    requires p.state in {SynReceived, Established, CloseWait} ==> InFlight(Close(p, now).pcb) <= 65536 && !h.finSent
    ensures Exact(Close(p, now).pcb, g)
  {
    if p.state == SynReceived || p.state == Established || p.state == CloseWait {
      FinExact(p, h, QueueEntry(now, now, DEFAULT_RTO, p.snd.nxt, ACK_FIN, []), Close(p, now).pcb, g);
    }
  }

  lemma CloseFlight(p: Pcb, h: Hist, now: nat)
    requires Inv(p, h) && h.begun && p.state in {SynReceived, Established, CloseWait}
    ensures InFlight(Close(p, now).pcb) <= 65536 && !h.finSent
  {
    CloseKeeps(p, h, now);
  }

  lemma FinExact(p: Pcb, h: Hist, e: QueueEntry, q: Pcb, g: Hist)
    requires Exact(p, h) && !h.finSent && e.sn == p.snd.nxt && e.data == [] && !e.flg.syn && e.flg.fin
    requires g.written == h.written && g.finSent && InFlight(q) <= 65536 && q.state != SynSent
    requires q.iss == p.iss && q.queue == p.queue + [e] && q.snd == p.snd.(nxt := e.End())
    ensures Exact(q, g)
  {
    AppendExact(p, h, e, q, g);
  }

  /** A block that takes its sequence space in this step starts with its SYN queued. */
  lemma OpeningExact(c: Conn, ev: Event)
    requires Inv(c.p, c.h) && Legal(c, ev) && !c.h.begun && Next(c, ev).h.begun
    ensures Exact(Next(c, ev).p, Next(c, ev).h)
  {
    var q := Step(c.p, ev).pcb;
    assert ev.UserConnect? || ev.Arrival?;
    FreshExact(q, Next(c, ev).h);
  }

  /** A block that has queued its SYN and nothing else. */
  lemma FreshExact(p: Pcb, h: Hist)
    requires |p.queue| == 1 && p.queue[0].sn == p.iss && p.queue[0].data == []
    requires p.queue[0].flg.syn && !p.queue[0].flg.fin
    requires h.written == [] && !h.finSent && p.snd.una == p.iss && p.snd.nxt == Add32(p.iss, 1)
    ensures Exact(p, h)
  {
    assert SitsAt(p.queue[0], p.iss, p.iss, [], false);
    assert Tiles(p.queue, [p.iss], p.snd.una, p.iss + 1) && Laid(p.queue, [p.iss], p.iss, [], false);
  }

  lemma ArrivalExact(p: Pcb, h: Hist, ev: Event)
    requires Inv(p, h) && h.begun && ev.Arrival? && Exact(p, h)
    ensures var q := Step(p, ev).pcb; Exact(q, Observe(h, p, ev, q))
  {
    if Synchronized(p.state) {
      SynchronizedExact(p, h, ev.seg, ev.local, ev.remote, ev.isn, ev.now);
    } else if p.state == SynSent {
      SynSentExact(p, h, ev.seg, ev.local, ev.remote, ev.isn, ev.now);
    } else {
      assert Step(p, ev).pcb == p;
    }
  }

  lemma SettingExact(c: Conn, ev: Event)
    requires Inv(c.p, c.h) && c.h.begun && Legal(c, ev) && Exact(c.p, c.h)
    requires Setting(ev) || ev.UserReceive?
    ensures Exact(Next(c, ev).p, Next(c, ev).h)
  {
    if ev.UserReceive? {
      ObserveCall(c.p, c.h, ev);
    } else {
      SettingShape(c.p, c.h, ev);
    }
    SameCoreExact(c.p, c.h, Next(c, ev).p, Next(c, ev).h);
  }

  lemma SameCoreExact(p: Pcb, h: Hist, q: Pcb, g: Hist)
    requires Exact(p, h) && q.snd == p.snd && q.iss == p.iss && q.queue == p.queue
    requires q.state == p.state || q.state == Closed
    requires g.written == h.written && g.finSent == h.finSent
    ensures Exact(q, g)
  {
  }

  lemma CallExact(p: Pcb, h: Hist, ev: Event)
    requires Inv(p, h) && h.begun && Exact(p, h) && (ev.Timer? || ev.UserSend? || ev.UserClose?)
    ensures var q := Step(p, ev).pcb; Exact(q, Observe(h, p, ev, q))
  {
    ObserveCall(p, h, ev);
    match ev
    case Timer(now) => TimerExact(p, h, now);
    case UserSend(rest, now) => SendExact(p, h, rest, now, Observe(h, p, ev, Step(p, ev).pcb));
    case UserClose(now) =>
      if p.state in {SynReceived, Established, CloseWait} {
        CloseFlight(p, h, now);
      }
      CloseExact(p, h, now, Observe(h, p, ev, Step(p, ev).pcb));
  }

  lemma ContinueExact(c: Conn, ev: Event)
    requires Inv(c.p, c.h) && c.h.begun && Legal(c, ev) && Exact(c.p, c.h)
    ensures Exact(Next(c, ev).p, Next(c, ev).h)
  {
    if ev.Arrival? {
      ArrivalExact(c.p, c.h, ev);
    } else if ev.Timer? || ev.UserSend? || ev.UserClose? {
      CallExact(c.p, c.h, ev);
    } else {
      SettingExact(c, ev);
    }
  }

  lemma StepExact(c: Conn, ev: Event)
    requires Inv(c.p, c.h) && Legal(c, ev) && ExactOnceBegun(c.p, c.h)
    ensures ExactOnceBegun(Next(c, ev).p, Next(c, ev).h)
  {
    if Next(c, ev).h.begun {
      if c.h.begun {
        ContinueExact(c, ev);
      } else {
        OpeningExact(c, ev);
      }
    }
  }
}
