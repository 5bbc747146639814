/** What holds after every run of a once-opened block. */
module TcpRuns {
  import opened Wrappers
  import opened Words
  import opened Inet
  import opened TcpPcb
  import opened TcpConn
  import opened TcpQueue

  /** One step of a run, for the induction below. */
  lemma StepAlong(c: Conn, ev: Event, d: Conn)
    requires Leads(c, ev, d) && Inv(c.p, c.h) && ExactOnceBegun(c.p, c.h)
    ensures Inv(d.p, d.h) && ExactOnceBegun(d.p, d.h)
  {
    StepKeeps(c, ev);
    StepExact(c, ev);
  }

  lemma StepAt(b: Birth, t: seq<Conn>, evs: seq<Event>, k: nat)
    requires IsRun(b, t, evs) && k < |evs| && Inv(t[k].p, t[k].h) && ExactOnceBegun(t[k].p, t[k].h)
    ensures Inv(t[k + 1].p, t[k + 1].h) && ExactOnceBegun(t[k + 1].p, t[k + 1].h)
  {
    StepAlong(t[k], evs[k], t[k + 1]);
  }

  /** The invariant and the exact queue hold all along every run. */
  lemma {:induction false} RunKeeps(b: Birth, t: seq<Conn>, evs: seq<Event>, i: nat)
    requires IsRun(b, t, evs) && i < |t|
    ensures Inv(t[i].p, t[i].h) && ExactOnceBegun(t[i].p, t[i].h)
  {
    if i == 0 {
      BirthKeeps(b);
    } else {
      RunKeeps(b, t, evs, i - 1);
      StepAt(b, t, evs, i - 1);
    }
  }

  lemma ReachableKeeps(c: Conn)
    requires Reachable(c)
    ensures Inv(c.p, c.h) && ExactOnceBegun(c.p, c.h)
  {
    var b, t, evs :| IsRun(b, t, evs) && t[|evs|] == c;
    RunKeeps(b, t, evs, |evs|);
  }

  lemma BirthKeeps(b: Birth)
    ensures Inv(Born(b).p, Born(b).h) && ExactOnceBegun(Born(b).p, Born(b).h)
  {
    if b.Child? {
      ChildKeeps(b);
    }
  }

  lemma ChildKeeps(b: Birth)
    requires b.Child?
    ensures Inv(Born(b).p, Born(b).h) && Exact(Born(b).p, Born(b).h)
  {
    var c := Born(b);
    var e := QueueEntry(b.now, b.now, DEFAULT_RTO, b.isn, SYN_ACK, []);
    assert c.p.queue == [e];
    assert Paced(e) && EntryOk(e, b.isn, [], false);
    FreshExact(c.p, c.h);
  }

  // ---------------------------------------------------------------- retransmission queue

  /** Every place from SND.UNA up to the top lies in some queue entry. */
  lemma {:induction false} TilesCover(q: seq<QueueEntry>, at: seq<nat>, una: nat, top: nat, x: nat) returns (i: nat)
    requires Tiles(q, at, una, top) && Numbered(q, at) && una <= x < top
    ensures i < |q| && at[i] <= x < at[i] + q[i].Consume()
    decreases |q|
  {
    i := 0;
    if x >= at[0] + q[0].Consume() {
      if |q| > 1 {
        TilesRest(q, at, una, top);
        i := TilesCover(q[1..], at[1..], at[1], top, x);
        i := i + 1;
      }
    }
  }

  /** Byte `k` of the stream is in the queue, at its own sequence number modulo 2^32. */
  ghost predicate Queued(p: Pcb, h: Hist, k: nat)
    requires k < |h.written|
  {
    exists i, j :: 0 <= i < |p.queue| && 0 <= j < |p.queue[i].data|
      && Add32(p.queue[i].sn, j) == Wrap(p.iss + 1 + k) && p.queue[i].data[j] == h.written[k]
  }

  /** An entry that covers the place of a written byte holds that byte. */
  lemma HoldsByte(e: QueueEntry, at: nat, iss: u32, w: seq<u8>, finSent: bool, k: nat) returns (j: nat)
    requires SitsAt(e, at, iss, w, finSent) && k < |w| && at <= iss + 1 + k < at + e.Consume()
    ensures j < |e.data| && Add32(e.sn, j) == Wrap(iss + 1 + k) && e.data[j] == w[k]
  {
    j := iss + 1 + k - at;
    WrapStep(at, j);
    var m := at - iss - 1;
    assert e.data[j] == w[m..m + |e.data|][j];
  }

  /** A written byte that SND.UNA has not passed is in the queue, in its place. */
  lemma UnackedByteQueued(p: Pcb, h: Hist, k: nat)
    requires Exact(p, h) && k < |h.written| && p.snd.una <= p.iss + 1 + k
    ensures Queued(p, h, k)
  {
    var i, j := QueuesByte(p.queue, p.snd.una, Top(p, h), p.iss, h.written, h.finSent, k);
  }

  lemma QueuesByte(q: seq<QueueEntry>, una: nat, top: nat, iss: u32, w: seq<u8>, finSent: bool, k: nat)
    returns (i: nat, j: nat)
    requires Queues(q, una, top, iss, w, finSent) && k < |w| && una <= iss + 1 + k < top
    ensures i < |q| && j < |q[i].data| && Add32(q[i].sn, j) == Wrap(iss + 1 + k) && q[i].data[j] == w[k]
  {
    var at: seq<nat> :| Tiles(q, at, una, top) && Laid(q, at, iss, w, finSent);
    LaidNumbered(q, at, iss, w, finSent);
    i := TilesCover(q, at, una, top, iss + 1 + k);
    j := HoldsByte(q[i], at[i], iss, w, finSent, k);
  }

  /** At most one FIN is queued, and it is the last entry. */
  lemma FinIsLast(p: Pcb, h: Hist, i: nat)
    requires Exact(p, h) && i < |p.queue| && p.queue[i].flg.fin
    ensures i == |p.queue| - 1
  {
    var at: seq<nat> :| Tiles(p.queue, at, p.snd.una, Top(p, h)) && Laid(p.queue, at, p.iss, h.written, h.finSent);
    LaidNumbered(p.queue, at, p.iss, h.written, h.finSent);
    assert SitsAt(p.queue[i], at[i], p.iss, h.written, h.finSent);
    LastAtTop(p.queue, at, p.snd.una, Top(p, h), i);
  }

  /** Apart from a SYN, only the last entry reaches the top. */
  lemma LastAtTop(q: seq<QueueEntry>, at: seq<nat>, una: nat, top: nat, i: nat)
    requires Tiles(q, at, una, top) && Numbered(q, at) && i < |q| && !q[i].flg.syn
    requires at[i] + q[i].Consume() >= top
    ensures i == |q| - 1
  {
    EndsRise(q, at, una, top, if i + 1 < |q| then i + 1 else i, |q| - 1);
  }

  /** Retransmission queue exactness, for every run, through wrap-around: the entries tile the sequence space from the
      one that holds SND.UNA up to SND.NXT, each in its place modulo 2^32 (`Queues`), the queue is empty exactly when
      everything is acknowledged, every written byte still unacknowledged is queued at its own sequence number, and a
      FIN is queued last if at all. */
  lemma QueueExactness(c: Conn)
    requires Reachable(c) && c.h.begun
    ensures var p, h := c.p, c.h;
      && p.snd.nxt == Wrap(Top(p, h))
      && Queues(p.queue, p.snd.una, Top(p, h), p.iss, h.written, h.finSent)
      && (p.queue == [] <==> p.snd.una == p.snd.nxt)
      && (forall k: nat :: k < |h.written| && p.snd.una <= p.iss + 1 + k ==> Queued(p, h, k))
      && (forall i :: 0 <= i < |p.queue| && p.queue[i].flg.fin ==> i == |p.queue| - 1)
  {
    ReachableKeeps(c);
    var p, h := c.p, c.h;
    WrappedIff(p.snd.una, Top(p, h), p.snd.nxt);
    forall k: nat | k < |h.written| && p.snd.una <= p.iss + 1 + k
      ensures Queued(p, h, k)
    {
      UnackedByteQueued(p, h, k);
    }
    forall i | 0 <= i < |p.queue| && p.queue[i].flg.fin
      ensures i == |p.queue| - 1
    {
      FinIsLast(p, h, i);
    }
  }

  // ---------------------------------------------------------------- the sender at 2^32

  /** SND.UNA never wraps, in any run, and less than a window and a FIN lies beyond it: a connection sends no further
      than 65536 past 2^32. SND.NXT has wrapped exactly if it is below SND.UNA. */
  lemma SequenceSpaceBound(c: Conn)
    requires Reachable(c) && c.h.begun
    ensures c.p.iss <= c.p.snd.una <= Top(c.p, c.h) <= c.p.snd.una + 65536
    ensures c.p.iss + |c.h.written| < M32 + 65536
    ensures c.p.snd.nxt < c.p.snd.una <==> Top(c.p, c.h) >= M32
  {
    ReachableKeeps(c);
    WrappedIff(c.p.snd.una, Top(c.p, c.h), c.p.snd.nxt);
  }

  /** A block that is still connected can take a new ACK if and only if SND.UNA is below SND.NXT by plain comparison
      and its receive window, unless closed, does not reach 2^32. */
  lemma CanTakeAckIff(p: Pcb, local: Endpoint, remote: Endpoint, now: nat)
    requires p.state in {SynReceived, Established, CloseWait, FinWait1, FinWait2}
    ensures (exists seg: Segment :: OnSynchronized(p, seg, local, remote, now).pcb.snd.una != p.snd.una)
      <==> p.snd.una < p.snd.nxt && (p.rcv.wnd == 0 || p.rcv.nxt + p.rcv.wnd < M32)
  {
    forall seg: Segment | OnSynchronized(p, seg, local, remote, now).pcb.snd.una != p.snd.una
      ensures p.snd.una < p.snd.nxt && (p.rcv.wnd == 0 || p.rcv.nxt + p.rcv.wnd < M32)
    {
      SynchronizedTrims(p, seg, local, remote, now);
      assert Acceptable(p.rcv, seg);
    }
    if p.snd.una < p.snd.nxt && (p.rcv.wnd == 0 || p.rcv.nxt + p.rcv.wnd < M32) {
      AckMovesUna(p, local, remote, now);
    }
  }

  lemma AckMovesUna(p: Pcb, local: Endpoint, remote: Endpoint, now: nat)
    requires p.state in {SynReceived, Established, CloseWait, FinWait1, FinWait2}
    requires p.snd.una < p.snd.nxt && (p.rcv.wnd == 0 || p.rcv.nxt + p.rcv.wnd < M32)
    ensures OnSynchronized(p, Segment(p.rcv.nxt, p.snd.nxt, ACK, 0, []), local, remote, now).pcb.snd.una == p.snd.nxt
  {
    var seg := Segment(p.rcv.nxt, p.snd.nxt, ACK, 0, []);
    assert Acceptable(p.rcv, seg);
    var a := AckStage(p, seg, local, remote, now);
    assert a.pcb.snd.una == p.snd.nxt && a.verdict == Continue;
    assert TextStage(a.pcb, seg).pcb == a.pcb;
  }

  /** One step of a block that has wrapped: nothing is acknowledged, nothing leaves the queue. */
  predicate Stuck(p: Pcb, q: Pcb) {
    q.snd.una == p.snd.una && |p.queue| <= |q.queue| && SameShape(p.queue, q.queue[..|p.queue|])
  }

  lemma WrappedStep(c: Conn, ev: Event)
    requires Inv(c.p, c.h) && Legal(c, ev) && c.h.begun && c.p.snd.nxt < c.p.snd.una
    ensures Stuck(c.p, Next(c, ev).p)
  {
    var p, q := c.p, Next(c, ev).p;
    if ev.Arrival? && Synchronized(p.state) {
      SynchronizedTrims(p, ev.seg, ev.local, ev.remote, ev.now);
    } else if ev.Timer? {
      TickShape(p, ev.now);
      assert q.queue[..|p.queue|] == q.queue;
    } else if ev.UserSend? {
      SendShape(p, ev.rest, ev.now);
    }
    assert q.queue[..|p.queue|] == p.queue || ev.Timer?;
  }

  lemma StuckTransitive(p: Pcb, q: Pcb, r: Pcb)
    requires Stuck(p, q) && Stuck(q, r)
    ensures Stuck(p, r)
  {
    forall i | 0 <= i < |p.queue|
      ensures r.queue[i].sn == p.queue[i].sn && r.queue[i].flg == p.queue[i].flg && r.queue[i].data == p.queue[i].data
    {
      assert r.queue[..|q.queue|][i] == r.queue[i] && q.queue[..|p.queue|][i] == q.queue[i];
    }
  }

  lemma WedgeStep(c: Conn, ev: Event, d: Conn)
    requires Leads(c, ev, d) && Inv(c.p, c.h) && c.h.begun && Exact(c.p, c.h) && c.p.snd.nxt < c.p.snd.una
    ensures d.h.begun && Stuck(c.p, d.p) && d.p.snd.nxt < d.p.snd.una
  {
    StepExtends(c, ev);
    StepExact(c, ev);
    WrappedStep(c, ev);
    StaysWrapped(c, d);
  }

  lemma StaysWrapped(c: Conn, d: Conn)
    requires c.h.begun && Exact(c.p, c.h) && Exact(d.p, d.h) && Extends(c.p, c.h, d.p, d.h)
    requires c.p.snd.nxt < c.p.snd.una == d.p.snd.una
    ensures d.p.snd.nxt < d.p.snd.una
  {
    WrappedIff(c.p.snd.una, Top(c.p, c.h), c.p.snd.nxt);
    WrappedIff(d.p.snd.una, Top(d.p, d.h), d.p.snd.nxt);
  }

  lemma StuckSelf(p: Pcb)
    ensures Stuck(p, p)
  {
    assert p.queue[..|p.queue|] == p.queue;
  }

  lemma WedgeAt(b: Birth, t: seq<Conn>, evs: seq<Event>, k: nat)
    requires IsRun(b, t, evs) && k < |evs| && t[k].h.begun && t[k].p.snd.nxt < t[k].p.snd.una
    ensures t[k + 1].h.begun && Stuck(t[k].p, t[k + 1].p) && t[k + 1].p.snd.nxt < t[k + 1].p.snd.una
  {
    RunKeeps(b, t, evs, k);
    WedgeStep(t[k], evs[k], t[k + 1]);
  }

  /** The sender wedges at the first wrap: once SND.NXT has wrapped, for the rest of every run it stays wrapped, nothing
      more is acknowledged and nothing leaves the queue. */
  lemma {:induction false} WrapWedges(b: Birth, t: seq<Conn>, evs: seq<Event>, i: nat, j: nat)
    requires IsRun(b, t, evs) && i <= j < |t| && t[i].h.begun && t[i].p.snd.nxt < t[i].p.snd.una
    ensures Stuck(t[i].p, t[j].p) && t[j].h.begun && t[j].p.snd.nxt < t[j].p.snd.una
    decreases j
  {
    if i == j {
      StuckSelf(t[i].p);
    } else {
      WrapWedges(b, t, evs, i, j - 1);
      WedgeAt(b, t, evs, j - 1);
      StuckTransitive(t[i].p, t[j - 1].p, t[j].p);
    }
  }

  // ---------------------------------------------------------------- the receiver at 2^32

  /** Text enters the buffer only at RCV.NXT, only before a FIN, and only while the window stays below 2^32. */
  lemma TextEnters(p: Pcb, seg: Segment, local: Endpoint, remote: Endpoint, now: nat)
    requires Synchronized(p.state)
    ensures var q := OnSynchronized(p, seg, local, remote, now).pcb;
      || q.buf == p.buf
      || (&& q.buf == p.buf + seg.data && seg.data != [] && seg.sn == p.rcv.nxt && !PeerClosed(p.state)
          && |seg.data| <= p.rcv.wnd && p.rcv.nxt + p.rcv.wnd < M32)
  {
    var a := AckStage(p, seg, local, remote, now);
    AckFrame(p, seg, local, remote, now);
    assert a.pcb.rcv == p.rcv;
    var t := TextStage(a.pcb, seg).pcb;
    assert FinStage(t, seg, now).pcb.buf == t.buf;
    if OnSynchronized(p, seg, local, remote, now).pcb.buf != p.buf {
      AcceptsBelow(p.rcv, seg);
    }
  }

  lemma AcceptsBelow(rcv: RcvVars, seg: Segment)
    requires Acceptable(rcv, seg) && seg.data != []
    ensures rcv.wnd > 0 && rcv.nxt + rcv.wnd < M32
  {
  }

  /** What an arrival adds to the accepted text. */
  lemma AcceptedGrows(c: Conn, ev: Event)
    requires Inv(c.p, c.h) && ev.Arrival?
    ensures var acc := Next(c, ev).h.accepted;
      || acc == c.h.accepted
      || (&& acc == c.h.accepted + ev.seg.data && c.h.begun && c.h.synced && !c.h.finSeen && ev.seg.data != []
          && ev.seg.sn == c.p.rcv.nxt && |ev.seg.data| <= c.p.rcv.wnd && c.p.rcv.nxt + c.p.rcv.wnd < M32)
  {
    var p, q := c.p, Step(c.p, ev).pcb;
    if Synchronized(p.state) {
      TextEnters(p, ev.seg, ev.local, ev.remote, ev.now);
      if q.buf != p.buf {
        assert q.buf[|p.buf|..] == ev.seg.data;
      }
    }
    if q.buf == p.buf {
      ObserveNoText(p, c.h, ev, q);
    }
  }

  /** What was accepted, counted from after the peer's SYN, stays below 2^32. */
  predicate AcceptedPlain(p: Pcb, h: Hist) {
    h.synced ==> Add32(p.irs, 1) + |h.accepted| < M32
  }

  /** Counting on from after the SYN, wrapped once if at all. */
  lemma PlainPlace(start: u32, k: nat)
    requires Add32(start, 1) + k < M32
    ensures Place(start, k) == Add32(start, 1) + k
  {
    WrapStep(start, 1);
    WrapStep(start + 1, k);
  }

  lemma StepPlain(c: Conn, ev: Event)
    requires Inv(c.p, c.h) && Legal(c, ev) && AcceptedPlain(c.p, c.h)
    ensures AcceptedPlain(Next(c, ev).p, Next(c, ev).h)
  {
    StepExtends(c, ev);
    if ev.Arrival? {
      ArrivalPlain(c, ev);
    } else {
      QuietKeepsAccepted(c, ev);
    }
  }

  lemma ArrivalPlain(c: Conn, ev: Event)
    requires Inv(c.p, c.h) && ev.Arrival? && AcceptedPlain(c.p, c.h)
    ensures var acc := Next(c, ev).h.accepted;
      acc == c.h.accepted || (c.h.synced && Add32(c.p.irs, 1) + |acc| < M32)
    ensures !c.h.synced ==> Next(c, ev).h.accepted == []
  {
    AcceptedGrows(c, ev);
    if c.h.synced {
      PlainPlace(c.p.irs, |c.h.accepted|);
    }
  }

  lemma QuietKeepsAccepted(c: Conn, ev: Event)
    requires Inv(c.p, c.h) && Legal(c, ev) && !ev.Arrival?
    ensures Next(c, ev).h.accepted == c.h.accepted && Next(c, ev).h.synced == c.h.synced
  {
    assert c.h.accepted + [] == c.h.accepted;
  }

  lemma {:induction false} RunPlain(b: Birth, t: seq<Conn>, evs: seq<Event>, i: nat)
    requires IsRun(b, t, evs) && i < |t|
    ensures AcceptedPlain(t[i].p, t[i].h)
  {
    if i > 0 {
      RunPlain(b, t, evs, i - 1);
      PlainAt(b, t, evs, i - 1);
    }
  }

  lemma PlainAt(b: Birth, t: seq<Conn>, evs: seq<Event>, k: nat)
    requires IsRun(b, t, evs) && k < |evs| && AcceptedPlain(t[k].p, t[k].h)
    ensures AcceptedPlain(t[k + 1].p, t[k + 1].h)
  {
    RunKeeps(b, t, evs, k);
    PlainAlong(t[k], evs[k], t[k + 1]);
  }

  lemma PlainAlong(c: Conn, ev: Event, d: Conn)
    requires Leads(c, ev, d) && Inv(c.p, c.h) && AcceptedPlain(c.p, c.h)
    ensures AcceptedPlain(d.p, d.h)
  {
    StepPlain(c, ev);
  }

  /** The receive window is open and reaches 2^32. */
  predicate Beyond(rcv: RcvVars) {
    rcv.wnd > 0 && rcv.nxt + rcv.wnd >= M32
  }

  /** Then the plain comparisons accept no segment at all: whatever arrives leaves the block as it is. */
  lemma BeyondIsDeaf(p: Pcb, seg: Segment, local: Endpoint, remote: Endpoint, now: nat)
    requires Synchronized(p.state) && Beyond(p.rcv)
    ensures var r := OnSynchronized(p, seg, local, remote, now); r.pcb == p && !r.release && !r.join && r.notices == 0
  {
  }

  /** A block that is deaf, and what that leaves as it was. */
  predicate Deaf(c: Conn) {
    Beyond(c.p.rcv) && c.h.begun && (Synchronized(c.p.state) || c.p.state == Closed)
  }

  predicate Deafened(c: Conn, d: Conn) {
    && Deaf(d) && d.p.rcv.nxt == c.p.rcv.nxt && d.h.accepted == c.h.accepted && d.p.snd.una == c.p.snd.una
    && d.h.finSeen == c.h.finSeen
  }

  lemma DeafStep(c: Conn, ev: Event, d: Conn)
    requires Leads(c, ev, d) && Inv(c.p, c.h) && Deaf(c)
    ensures Deafened(c, d)
  {
    if ev.Arrival? {
      DeafArrival(c, ev);
    } else {
      QuietKeepsAccepted(c, ev);
      DeafCall(c, ev);
    }
  }

  lemma DeafArrival(c: Conn, ev: Event)
    requires ev.Arrival? && Inv(c.p, c.h) && Deaf(c)
    ensures Next(c, ev).p == c.p && Next(c, ev).h.accepted == c.h.accepted && Next(c, ev).h.finSeen == c.h.finSeen
    ensures c.h.begun ==> Next(c, ev).h.begun
  {
    if Synchronized(c.p.state) {
      BeyondIsDeaf(c.p, ev.seg, ev.local, ev.remote, ev.now);
    }
    assert c.h.accepted + [] == c.h.accepted;
  }

  lemma DeafCall(c: Conn, ev: Event)
    requires Inv(c.p, c.h) && Legal(c, ev) && Deaf(c) && !ev.Arrival?
    ensures var d := Next(c, ev);
      && Deaf(d) && d.p.rcv.nxt == c.p.rcv.nxt && d.p.snd.una == c.p.snd.una && d.h.finSeen == c.h.finSeen
  {
    if ev.UserSend? {
      SendShape(c.p, ev.rest, ev.now);
    } else if ev.UserReceive? {
      DeafReceive(c.p, c.h, ev.room);
    }
  }

  lemma DeafReceive(p: Pcb, h: Hist, room: nat)
    requires Inv(p, h) && h.begun && Beyond(p.rcv)
    ensures var q := Receive(p, room).pcb;
      Beyond(q.rcv) && q.rcv.nxt == p.rcv.nxt && q.snd == p.snd && q.state == p.state
  {
    ReceiveKeeps(p, h, room);
  }

  lemma DeafAt(b: Birth, t: seq<Conn>, evs: seq<Event>, k: nat)
    requires IsRun(b, t, evs) && k < |evs| && Deaf(t[k])
    ensures Deafened(t[k], t[k + 1])
  {
    RunKeeps(b, t, evs, k);
    DeafStep(t[k], evs[k], t[k + 1]);
  }

  lemma SynchronizedIsBegun(b: Birth, t: seq<Conn>, evs: seq<Event>, i: nat)
    requires IsRun(b, t, evs) && i < |t| && Synchronized(t[i].p.state)
    ensures t[i].h.begun
  {
    RunKeeps(b, t, evs, i);
  }

  /** The receiver wedges too: once the open window of a synchronized block reaches 2^32, for the rest of every run no
      ACK, text or FIN is ever taken again. */
  lemma {:induction false} ReceiveWedges(b: Birth, t: seq<Conn>, evs: seq<Event>, i: nat, j: nat)
    requires IsRun(b, t, evs) && i <= j < |t| && Synchronized(t[i].p.state) && Beyond(t[i].p.rcv)
    ensures Deafened(t[i], t[j])
    decreases j
  {
    if i == j {
      SynchronizedIsBegun(b, t, evs, i);
    } else {
      ReceiveWedges(b, t, evs, i, j - 1);
      DeafAt(b, t, evs, j - 1);
    }
  }

  /** So a connection whose peer picks one of the initial sequence numbers from 2^32 - 65536 to 2^32 - 2 is never
      established by a listener: its window reaches 2^32 from the start. */
  lemma {:induction false} LateNumberNeverOpens(b: Birth, t: seq<Conn>, evs: seq<Event>, j: nat)
    requires IsRun(b, t, evs) && j < |t| && b.Child? && M32 - 65536 <= b.seg.sn <= M32 - 2
    ensures t[j].p.state in {SynReceived, FinWait1, Closed} && t[j].h.accepted == [] && t[j].p.snd.una == t[j].p.iss
  {
    BornDeaf(b);
    ReceiveWedges(b, t, evs, 0, j);
    if j > 0 {
      LateNumberNeverOpens(b, t, evs, j - 1);
      ReceiveWedges(b, t, evs, 0, j - 1);
      NotOpenedAt(b, t, evs, j - 1);
    }
  }

  lemma BornDeaf(b: Birth)
    requires b.Child? && M32 - 65536 <= b.seg.sn <= M32 - 2
    ensures Deaf(Born(b)) && Synchronized(Born(b).p.state) && Born(b).p.state == SynReceived
    ensures Born(b).h.accepted == [] && Born(b).p.snd.una == Born(b).p.iss
  {
  }

  lemma NotOpenedAt(b: Birth, t: seq<Conn>, evs: seq<Event>, k: nat)
    requires IsRun(b, t, evs) && k < |evs| && Deaf(t[k]) && t[k].p.state in {SynReceived, FinWait1, Closed}
    ensures t[k + 1].p.state in {SynReceived, FinWait1, Closed} && t[k + 1].p.iss == t[k].p.iss
  {
    RunKeeps(b, t, evs, k);
    NotOpened(t[k], evs[k], t[k + 1]);
  }

  lemma NotOpened(c: Conn, ev: Event, d: Conn)
    requires Leads(c, ev, d) && Inv(c.p, c.h) && Deaf(c) && c.h.begun && c.p.state in {SynReceived, FinWait1, Closed}
    ensures d.p.state in {SynReceived, FinWait1, Closed} && d.p.iss == c.p.iss
  {
    StepExtends(c, ev);
    if ev.Arrival? {
      DeafArrival(c, ev);
    }
  }

  // ---------------------------------------------------------------- receive buffer

  /** Receive-buffer conservation: window and buffered text always make up the whole buffer, nothing accepted is lost
      before it is read, and RCV.NXT counts the text until a FIN. */
  lemma ReceiveConservation(c: Conn)
    requires Reachable(c) && c.h.begun
    ensures c.p.rcv.wnd + |c.p.buf| == 65535 && c.h.read + c.p.buf == c.h.accepted
    ensures c.h.synced && !c.h.finSeen ==> c.p.rcv.nxt == Wrap(c.p.irs + 1 + |c.h.accepted|)
  {
    ReachableKeeps(c);
  }

  /** So neither taking text nor handing it out over- or underflows the u16 window. */
  lemma WindowArithmetic(c: Conn, seg: Segment, room: nat)
    requires Reachable(c) && c.h.begun
    ensures Receive(c.p, room).pcb.rcv.wnd == c.p.rcv.wnd + |Taken(c.p, room)|
    ensures TextStage(c.p, seg).pcb.rcv.wnd == c.p.rcv.wnd - (|TextStage(c.p, seg).pcb.buf| - |c.p.buf|)
  {
    ReceiveConservation(c);
  }

  // ---------------------------------------------------------------- retransmission pacing

  function Pow2(k: nat): nat {
    if k == 0 then 1 else 2 * Pow2(k - 1)
  }

  /** The entry was never sent again. */
  predicate Fresh(e: QueueEntry) {
    e.first == e.last && e.rto == DEFAULT_RTO
  }

  /** The timer sends entry `e` of block `p` again. */
  predicate Resends(p: Pcb, ev: Event, e: QueueEntry) {
    ev.Timer? && !(p.state == TimeWait && ev.now > p.twTimer) && !Expired(p.queue, ev.now) && Due(e, ev.now)
  }

  /** What becomes of an entry that stays queued. */
  function Later(p: Pcb, ev: Event, e: QueueEntry): QueueEntry {
    if Resends(p, ev, e) then Fire(e, ev.now) else e
  }

  /** The life of a queue entry, from its output on, at the first position where it is queued: `es[m]` is the entry in
      the queue at position `i + m` of the run. */
  ghost predicate IsLife(t: seq<Conn>, evs: seq<Event>, i: nat, es: seq<QueueEntry>) {
    && |t| == |evs| + 1 && 0 < |es| && i + |es| <= |t| && Fresh(es[0]) && (i > 0 ==> es[0] !in t[i - 1].p.queue)
    && (forall m :: 0 <= m < |es| ==> es[m] in t[i + m].p.queue)
    && (forall m :: 0 < m < |es| ==> es[m] == Later(t[i + m - 1].p, evs[i + m - 1], es[m - 1]))
  }

  /** How often it has been sent again at position `i + m`. */
  ghost function Resent(t: seq<Conn>, evs: seq<Event>, i: nat, es: seq<QueueEntry>, m: nat): nat
    requires IsLife(t, evs, i, es) && m < |es|
  {
    if m == 0 then 0
    else Resent(t, evs, i, es, m - 1) + (if Resends(t[i + m - 1].p, evs[i + m - 1], es[m - 1]) then 1 else 0)
  }

  /** A resending is a packet on the wire. */
  lemma ResendingIsSent(p: Pcb, ev: Event, e: QueueEntry)
    requires e in p.queue && Resends(p, ev, e)
    ensures Resend(p, e) in Step(p, ev).sent
  {
  }

  lemma Pow2Small(k: nat)
    requires Pow2(k) <= 60
    ensures k <= 5
  {
    if k >= 6 {
      Pow2AtMost(k);
    }
  }

  lemma Pow2AtMost(k: nat)
    requires k >= 6
    ensures Pow2(k) >= 64
  {
    if k > 6 {
      Pow2AtMost(k - 1);
    }
  }

  /** Backoff bound: over every run and under any timer schedule an entry is sent again at most five times from its
      output on; when it has been sent again k times its timeout is 200ms * 2^k, and the k-th time came no earlier than
      200ms * (2^k - 1) after it was first sent. */
  lemma {:induction false} ResentAtMostFiveTimes(t: seq<Conn>, evs: seq<Event>, i: nat, es: seq<QueueEntry>, m: nat)
    requires IsLife(t, evs, i, es) && m < |es|
    ensures var k := Resent(t, evs, i, es, m);
      && k <= 5 && es[m].first == es[0].first && es[m].rto == DEFAULT_RTO * Pow2(k)
      && es[m].last >= es[m].first + DEFAULT_RTO * (Pow2(k) - 1)
  {
    if m > 0 {
      ResentAtMostFiveTimes(t, evs, i, es, m - 1);
      var p, ev, e := t[i + m - 1].p, evs[i + m - 1], es[m - 1];
      if Resends(p, ev, e) {
        var k := Resent(t, evs, i, es, m - 1);
        assert e in p.queue && ev.now < e.first + RETRANS_DEADLINE;
        Pow2Small(k + 1);
      }
    }
  }

  /** The queue after a step: entries that stayed, and at most one that was just output. */
  lemma QueueOrigins(p: Pcb, ev: Event, e: QueueEntry)
    requires e in Step(p, ev).pcb.queue
    ensures Fresh(e) || exists d :: d in p.queue && e == Later(p, ev, d)
  {
    var q := Step(p, ev).pcb;
    if ev.Timer? {
      TickOrigins(p, ev, e);
    } else if ev.Arrival? {
      ArrivalOrigins(p, ev, e);
    } else if e in p.queue {
      assert e == Later(p, ev, e);
    }
  }

  lemma ArrivalOrigins(p: Pcb, ev: Event, e: QueueEntry)
    requires ev.Arrival? && e in Step(p, ev).pcb.queue
    ensures Fresh(e) || (e in p.queue && e == Later(p, ev, e))
  {
    CleanupIsSuffix(p.queue, ev.seg.ack);
    if Synchronized(p.state) {
      SynchronizedTrims(p, ev.seg, ev.local, ev.remote, ev.now);
    }
  }

  /** Every entry that is queued at some moment of a run has such a life, so the bound holds of every entry. */
  lemma {:induction false} EveryEntryHasLife(b: Birth, t: seq<Conn>, evs: seq<Event>, j: nat, e: QueueEntry)
    returns (i: nat, es: seq<QueueEntry>)
    requires IsRun(b, t, evs) && j < |t| && e in t[j].p.queue
    ensures IsLife(t, evs, i, es) && i + |es| == j + 1 && es[|es| - 1] == e
  {
    if j == 0 {
      BirthFresh(b, e);
      LifeBegins(t, evs, j, e);
      return j, [e];
    }
    var before := EntryBefore(t[j - 1], evs[j - 1], t[j], e);
    if before.None? {
      LifeBegins(t, evs, j, e);
      return j, [e];
    }
    var lives: seq<QueueEntry>;
    i, lives := EveryEntryHasLife(b, t, evs, j - 1, before.value);
    LifeGoesOn(t, evs, i, lives, e);
    es := lives + [e];
  }

  lemma LifeBegins(t: seq<Conn>, evs: seq<Event>, i: nat, e: QueueEntry)
    requires |t| == |evs| + 1 && i < |t| && e in t[i].p.queue && Fresh(e) && (i > 0 ==> e !in t[i - 1].p.queue)
    ensures IsLife(t, evs, i, [e])
  {
  }

  lemma BirthFresh(b: Birth, e: QueueEntry)
    requires e in Born(b).p.queue
    ensures Fresh(e)
  {
  }

  /** What an entry was one step before, or that it was not queued then. */
  lemma EntryBefore(c: Conn, ev: Event, d: Conn, e: QueueEntry) returns (before: Option<QueueEntry>)
    requires Leads(c, ev, d) && e in d.p.queue
    ensures before.Some? ==> before.value in c.p.queue && e == Later(c.p, ev, before.value)
    ensures before.None? ==> Fresh(e) && e !in c.p.queue
  {
    QueueOrigins(c.p, ev, e);
    if d :| d in c.p.queue && e == Later(c.p, ev, d) {
      return Some(d);
    }
    if e in c.p.queue {
      assert Resends(c.p, ev, e);
      TickOrigins(c.p, ev, e);
    }
    return None;
  }

  lemma TickOrigins(p: Pcb, ev: Event, e: QueueEntry)
    requires ev.Timer? && e in Step(p, ev).pcb.queue
    ensures exists d :: d in p.queue && e == Later(p, ev, d)
  {
    var q := Step(p, ev).pcb;
    var n :| 0 <= n < |q.queue| && q.queue[n] == e;
    assert p.queue[n] in p.queue && e == Later(p, ev, p.queue[n]);
  }

  lemma LifeGoesOn(t: seq<Conn>, evs: seq<Event>, i: nat, es: seq<QueueEntry>, e: QueueEntry)
    requires IsLife(t, evs, i, es) && i + |es| < |t| && e in t[i + |es|].p.queue
    requires e == Later(t[i + |es| - 1].p, evs[i + |es| - 1], es[|es| - 1])
    ensures IsLife(t, evs, i, es + [e])
  {
  }
}
