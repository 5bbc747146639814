/** What the locked sections of src/tcp.rs must put on the wire, said of the block before and after and of the packets
    alone: whatever takes sequence space is sent, whatever is taken is acknowledged, whatever is overdue is sent
    again. */
module TcpEffects {
  import opened Wrappers
  import opened Words
  import opened Inet
  import opened TcpPcb
  import opened TcpConn
  import R = TcpRuns

  // ---------------------------------------------------------------- what is queued is sent

  /** A packet from the block to its peer with the number, the flags and the text of the entry, and with the block's
      current acknowledgment and window. */
  predicate Carries(pk: Packet, q: Pcb, e: QueueEntry) {
    && pk.src == q.local && pk.dst == q.remote
    && pk.seg.sn == e.sn && pk.seg.flg == e.flg && pk.seg.data == e.data
    && pk.seg.ack == q.rcv.nxt && pk.seg.wnd == q.rcv.wnd
  }

  ghost predicate OnTheWire(sent: set<Packet>, q: Pcb, e: QueueEntry) {
    exists pk :: pk in sent && Carries(pk, q, e)
  }

  function Moment(ev: Event): nat {
    match ev
    case Arrival(_, _, _, _, now) => now
    case Timer(now) => now
    case UserClose(now) => now
    case UserSend(_, now) => now
    case UserConnect(_, _, _, _, now) => now
    case _ => 0
  }

  /** What a stage leaves queued was queued before. */
  ghost predicate QueueShrinks(p: Pcb, q: Pcb) {
    forall e :: e in q.queue ==> e in p.queue
  }

  lemma SynchronizedShrinks(p: Pcb, seg: Segment, local: Endpoint, remote: Endpoint, now: nat)
    ensures QueueShrinks(p, OnSynchronized(p, seg, local, remote, now).pcb)
  {
    CleanupIsSuffix(p.queue, seg.ack);
    var a := AckStage(p, seg, local, remote, now);
    assert QueueShrinks(p, a.pcb);
    LaterShrinks(a, seg, now);
  }

  lemma LaterShrinks(a: Stage, seg: Segment, now: nat)
    ensures AfterAck(a, seg, now).pcb.queue == a.pcb.queue
  {
    var t := TextStage(a.pcb, seg);
    assert t.pcb.queue == a.pcb.queue && FinStage(t.pcb, seg, now).pcb.queue == t.pcb.queue;
  }

  /** An entry that a section leaves in the queue was there before as it is, or it goes out in this very section. */
  ghost predicate EntryServed(p: Pcb, ev: Event, e: QueueEntry) {
    e in p.queue || (e.last == Moment(ev) && OnTheWire(Step(p, ev).sent, Step(p, ev).pcb, e))
  }

  lemma ArrivalServes(p: Pcb, ev: Event, e: QueueEntry)
    requires ev.Arrival? && e in Step(p, ev).pcb.queue
    ensures EntryServed(p, ev, e)
  {
    var q, sent := Step(p, ev).pcb, Step(p, ev).sent;
    if Synchronized(p.state) {
      SynchronizedShrinks(p, ev.seg, ev.local, ev.remote, ev.now);
    } else if p.state == SynSent {
      CleanupIsSuffix(p.queue, ev.seg.ack);
      if e !in p.queue {
        assert Carries(Transmit(q, SYN_ACK, []), q, e);
      }
    } else if e !in p.queue {
      assert Carries(SynAckOf(q), q, e);
    }
  }

  lemma TimerServes(p: Pcb, now: nat, e: QueueEntry)
    requires e in Tick(p, now).pcb.queue
    ensures EntryServed(p, Timer(now), e)
  {
    var q := Tick(p, now).pcb;
    if e !in p.queue {
      var i :| 0 <= i < |q.queue| && q.queue[i] == e;
      assert p.queue[i] in p.queue && Carries(Resend(p, p.queue[i]), q, e);
    }
  }

  lemma CallServes(p: Pcb, ev: Event, e: QueueEntry)
    requires !ev.Arrival? && !ev.Timer? && e in Step(p, ev).pcb.queue
    ensures EntryServed(p, ev, e)
  {
    var q, sent := Step(p, ev).pcb, Step(p, ev).sent;
    if e !in p.queue {
      match ev
      case UserClose(_) => assert Carries(Transmit(p, ACK_FIN, []), q, e);
      case UserSend(rest, _) => assert Carries(Transmit(p, ACK_PSH, Chunk(p, rest)), q, e);
      case UserConnect(_, _, _, _, _) =>
        assert Carries(Packet(q.local, q.remote, Segment(e.sn, q.rcv.nxt, SYN, q.rcv.wnd, [])), q, e);
    }
  }

  /** Whatever takes sequence space is sent: SYN, text, FIN and every resending leave in the section that queues them
      or moves their timer. */
  lemma QueuedIsSent(p: Pcb, ev: Event, e: QueueEntry)
    requires e in Step(p, ev).pcb.queue
    ensures EntryServed(p, ev, e)
  {
    match ev
    case Arrival(_, _, _, _, _) => ArrivalServes(p, ev, e);
    case Timer(now) => TimerServes(p, now, e);
    case _ => CallServes(p, ev, e);
  }

  // ---------------------------------------------------------------- what is taken is acknowledged

  /** A packet from the block to its peer that acknowledges everything before `number`. */
  predicate Acknowledges(pk: Packet, q: Pcb, number: u32) {
    && pk.src == q.local && pk.dst == q.remote
    && pk.seg.flg.ack && !pk.seg.flg.rst && pk.seg.ack == number
  }

  ghost predicate Acked(sent: set<Packet>, q: Pcb, number: u32) {
    exists pk :: pk in sent && Acknowledges(pk, q, number)
  }

  /** How much text the buffer gained. */
  function Gain(p: Pcb, q: Pcb): nat {
    if |p.buf| < |q.buf| then |q.buf| - |p.buf| else 0
  }

  /** If the buffer gained text, the peer is sent an ACK of what was expected plus that text. */
  ghost predicate AcksText(p: Pcb, r: Reaction) {
    Gain(p, r.pcb) > 0 ==> Acked(r.sent, r.pcb, Wrap(p.rcv.nxt + Gain(p, r.pcb)))
  }

  /** If RCV.NXT moved, the peer is sent an ACK of it. */
  ghost predicate AcksAdvance(p: Pcb, r: Reaction) {
    r.pcb.rcv.nxt != p.rcv.nxt ==> Acked(r.sent, r.pcb, r.pcb.rcv.nxt)
  }

  /** The endpoints of a block past LISTEN stay. */
  lemma StagesStay(a: Stage, seg: Segment, now: nat)
    ensures var t := TextStage(a.pcb, seg);
      && t.pcb.local == a.pcb.local && t.pcb.remote == a.pcb.remote
      && AfterAck(a, seg, now).pcb.local == a.pcb.local && AfterAck(a, seg, now).pcb.remote == a.pcb.remote
      && t.sent <= AfterAck(a, seg, now).sent && a.sent <= AfterAck(a, seg, now).sent
      && (t.verdict != Stop ==> FinStage(t.pcb, seg, now).sent <= AfterAck(a, seg, now).sent)
  {
  }

  lemma AckStays(p: Pcb, seg: Segment, local: Endpoint, remote: Endpoint, now: nat)
    ensures var q := AckStage(p, seg, local, remote, now).pcb;
      q.local == p.local && q.remote == p.remote && q.rcv == p.rcv && q.buf == p.buf
  {
  }

  lemma TextStageAcks(p: Pcb, seg: Segment)
    ensures var t := TextStage(p, seg);
      && t.pcb.local == p.local && t.pcb.remote == p.remote
      && t.pcb.rcv.nxt == Wrap(p.rcv.nxt + Gain(p, t.pcb))
      && (t.pcb.rcv.nxt != p.rcv.nxt || Gain(p, t.pcb) > 0 ==> Acked(t.sent, p, t.pcb.rcv.nxt))
      && (TakesText(p.state) && seg.data != [] ==> Acked(t.sent, p, t.pcb.rcv.nxt))
  {
    var t := TextStage(p, seg);
    if t.sent != {} {
      assert Acknowledges(Transmit(t.pcb, ACK, []), p, t.pcb.rcv.nxt);
    }
  }

  lemma FinStageAcks(p: Pcb, seg: Segment, now: nat)
    ensures var f := FinStage(p, seg, now);
      && f.pcb.local == p.local && f.pcb.remote == p.remote
      && (f.pcb.rcv.nxt != p.rcv.nxt ==> Acked(f.sent, p, f.pcb.rcv.nxt))
  {
    var f := FinStage(p, seg, now);
    if f.sent != {} {
      assert Acknowledges(Transmit(f.pcb, ACK, []), p, f.pcb.rcv.nxt);
    }
  }

  lemma MoreAcked(few: set<Packet>, many: set<Packet>, p: Pcb, q: Pcb, number: u32)
    requires Acked(few, p, number) && few <= many && q.local == p.local && q.remote == p.remote
    ensures Acked(many, q, number)
  {
    var pk :| pk in few && Acknowledges(pk, p, number);
    assert Acknowledges(pk, q, number);
  }

  /** What the checks after the ACK field acknowledge: the text they take, the last number they expect, and any text at
      all in a state that takes text. */
  lemma AfterAckAcks(a: Stage, seg: Segment, now: nat)
    ensures var r := AfterAck(a, seg, now);
      && AcksText(a.pcb, r) && AcksAdvance(a.pcb, r)
      && (TakesText(a.pcb.state) && seg.data != [] ==> Acked(r.sent, r.pcb, r.pcb.rcv.nxt))
  {
    var t, r := TextStage(a.pcb, seg), AfterAck(a, seg, now);
    StagesSplit(a, seg, now);
    StagesStay(a, seg, now);
    TextStageAcks(a.pcb, seg);
    FinStageAcks(t.pcb, seg, now);
    if Acked(t.sent, a.pcb, t.pcb.rcv.nxt) {
      MoreAcked(t.sent, r.sent, a.pcb, r.pcb, t.pcb.rcv.nxt);
    }
    if t.verdict != Stop && FinStage(t.pcb, seg, now).pcb.rcv.nxt != t.pcb.rcv.nxt {
      MoreAcked(FinStage(t.pcb, seg, now).sent, r.sent, t.pcb, r.pcb, r.pcb.rcv.nxt);
    }
  }

  lemma SynchronizedAcks(p: Pcb, seg: Segment, local: Endpoint, remote: Endpoint, now: nat)
    ensures var r := OnSynchronized(p, seg, local, remote, now); AcksText(p, r) && AcksAdvance(p, r)
  {
    var a, r := AckStage(p, seg, local, remote, now), OnSynchronized(p, seg, local, remote, now);
    AckStays(p, seg, local, remote, now);
    AfterAckAcks(a, seg, now);
    if r != AfterAck(a, seg, now) {
      assert r.pcb.buf == p.buf && r.pcb.rcv == p.rcv;
    }
  }

  lemma OthersTakeNoText(p: Pcb, ev: Event)
    requires ev.Arrival? && !Synchronized(p.state)
    ensures Step(p, ev).pcb.buf == p.buf
  {
  }

  /** Accepted text is acknowledged: an arrival that lengthens the buffer sends the peer an ACK of what was expected
      plus the text gained. */
  lemma TextIsAcked(p: Pcb, ev: Event)
    requires ev.Arrival?
    ensures AcksText(p, Step(p, ev))
  {
    if Synchronized(p.state) {
      SynchronizedAcks(p, ev.seg, ev.local, ev.remote, ev.now);
    } else {
      OthersTakeNoText(p, ev);
    }
  }

  /** So is everything else that moves RCV.NXT: a SYN, text, a FIN. */
  lemma AdvanceIsAcked(p: Pcb, ev: Event)
    requires ev.Arrival?
    ensures AcksAdvance(p, Step(p, ev))
  {
    var r := Step(p, ev);
    if Synchronized(p.state) {
      SynchronizedAcks(p, ev.seg, ev.local, ev.remote, ev.now);
    } else if r.pcb.rcv.nxt != p.rcv.nxt {
      if r.pcb.state == Established {
        assert Acknowledges(Transmit(SynTaken(p, ev.seg), ACK, []), r.pcb, r.pcb.rcv.nxt);
      } else {
        assert Acknowledges(Transmit(r.pcb, SYN_ACK, []), r.pcb, r.pcb.rcv.nxt);
      }
    }
  }

  /** A block that still takes text never leaves a segment with text unanswered: whether it is taken, old, early or too
      long, what is expected next goes back. */
  lemma TextIsAnswered(p: Pcb, ev: Event)
    requires ev.Arrival? && TakesText(p.state)
    requires ev.seg.data != [] && ev.seg.flg.ack && !ev.seg.flg.rst && !ev.seg.flg.syn
    ensures var r := Step(p, ev); Acked(r.sent, r.pcb, r.pcb.rcv.nxt)
  {
    var r, a := Step(p, ev), AckStage(p, ev.seg, ev.local, ev.remote, ev.now);
    if !Acceptable(p.rcv, ev.seg) || a.verdict == Stop {
      AckStays(p, ev.seg, ev.local, ev.remote, ev.now);
      assert Acknowledges(Transmit(p, ACK, []), r.pcb, r.pcb.rcv.nxt);
    } else {
      AckKeepsTaking(p, ev.seg, ev.local, ev.remote, ev.now);
      AfterAckAcks(a, ev.seg, ev.now);
    }
  }

  lemma AckKeepsTaking(p: Pcb, seg: Segment, local: Endpoint, remote: Endpoint, now: nat)
    requires TakesText(p.state)
    ensures TakesText(AckStage(p, seg, local, remote, now).pcb.state)
    ensures AckStage(p, seg, local, remote, now).verdict != Release
  {
  }

  // ---------------------------------------------------------------- resets

  /** A reset without text, SYN or FIN falls into the window, by the plain comparisons of the source. */
  predicate InWindow(rcv: RcvVars, sn: u32) {
    if rcv.wnd == 0 then sn == rcv.nxt else rcv.nxt <= sn < rcv.nxt + rcv.wnd < M32
  }

  /** A segment that only resets; any host may send one for a connection it does not know. */
  predicate BareReset(seg: Segment) {
    seg.flg.rst && !seg.flg.syn && !seg.flg.fin && seg.data == []
  }

  /** The resets that end a connection: in SYN_SENT those that acknowledge the SYN, later those in the window. */
  predicate Kills(p: Pcb, seg: Segment) {
    if p.state == SynSent then seg.flg.ack && p.iss < seg.ack && p.snd.una <= seg.ack <= p.snd.nxt
    else Synchronized(p.state) && InWindow(p.rcv, seg.sn)
  }

  /** A reset closes and frees the block exactly if it is one of these, and otherwise changes nothing. */
  lemma ResetFreesIff(p: Pcb, ev: Event)
    requires ev.Arrival? && BareReset(ev.seg)
    ensures Step(p, ev).release <==> Kills(p, ev.seg)
    ensures Step(p, ev).pcb == if Kills(p, ev.seg) then p.(state := Closed) else p
    ensures !Step(p, ev).join && Step(p, ev).notices == 0
  {
    assert ev.seg.Len() == 0;
  }

  /** A reset is answered exactly in SYN_SENT, if its ACK is not one of the SYN; section 3.4 of RFC 793 would have no
      reset answered. */
  lemma ResetAnsweredIff(p: Pcb, ev: Event)
    requires ev.Arrival? && ev.seg.flg.rst
    ensures Step(p, ev).sent != {} <==>
      p.state == SynSent && ev.seg.flg.ack && !(p.iss < ev.seg.ack <= p.snd.nxt)
  {
  }

  /** An ACK of something that was never sent, while the connection is not open yet. */
  predicate AcksNothing(p: Pcb, seg: Segment) {
    match p.state
    case Listen => true
    case SynSent => !(p.iss < seg.ack <= p.snd.nxt)
    case SynReceived => seg.data == [] && InWindow(p.rcv, seg.sn) && !(p.snd.una <= seg.ack <= p.snd.nxt)
    case _ => false
  }

  /** It is answered with a reset from the number it acknowledges, and leaves the block as it is. */
  lemma BadAckIsReset(p: Pcb, ev: Event)
    requires ev.Arrival? && ev.seg.flg == ACK && AcksNothing(p, ev.seg)
    ensures Step(p, ev).pcb == p && !Step(p, ev).release
    ensures exists pk :: pk in Step(p, ev).sent && pk.src == ev.local && pk.dst == ev.remote && BareReset(pk.seg)
                         && !pk.seg.flg.ack && pk.seg.sn == ev.seg.ack
  {
    assert Packet(ev.local, ev.remote, Segment(ev.seg.ack, 0, RST, 0, [])) in Step(p, ev).sent;
  }

  /** A SYN in the window of a synchronized block resets the connection. */
  lemma SynInWindowResets(p: Pcb, ev: Event)
    requires ev.Arrival? && Synchronized(p.state) && ev.seg.flg.syn && !ev.seg.flg.rst && !ev.seg.flg.fin
    requires ev.seg.data == [] && p.rcv.wnd > 0 && InWindow(p.rcv, ev.seg.sn)
    ensures Step(p, ev).release && Step(p, ev).pcb.state == Closed
    ensures exists pk :: pk in Step(p, ev).sent && pk.src == p.local && pk.dst == p.remote && pk.seg.flg == RST
                         && pk.seg.sn == p.snd.nxt
  {
    assert Transmit(p, RST, []) in Step(p, ev).sent;
  }

  /** A new ACK moves SND.UNA, and brings its window along exactly if the segment is not older than the one the window
      came from. */
  lemma NewAckTakesWindow(p: Pcb, ev: Event)
    requires ev.Arrival? && p.state in {Established, CloseWait, FinWait1, FinWait2}
    requires ev.seg.flg == ACK && ev.seg.data == [] && InWindow(p.rcv, ev.seg.sn) && p.snd.una < ev.seg.ack <= p.snd.nxt
    ensures var s, q, seg := p.snd, Step(p, ev).pcb.snd, ev.seg;
      && q.una == seg.ack && q.nxt == s.nxt
      && if s.wl1 < seg.sn || (s.wl1 == seg.sn && s.wl2 <= seg.ack)
         then q.wnd == seg.wnd && q.wl1 == seg.sn && q.wl2 == seg.ack
         else q.wnd == s.wnd && q.wl1 == s.wl1 && q.wl2 == s.wl2
  {
  }

  // ---------------------------------------------------------------- what is overdue is sent again

  /** The queue keeps its entries, apart from when they were last sent and how long they wait next. */
  predicate SameEntry(e: QueueEntry, f: QueueEntry) {
    f.first == e.first && f.sn == e.sn && f.flg == e.flg && f.data == e.data
  }

  /** Nothing in the queue is overdue at `now`, and what went out only once went out less than 200 ms ago. */
  predicate NothingOverdue(q: Pcb, now: nat) {
    forall e :: e in q.queue ==>
      now < e.last + e.rto && (e.last == e.first ==> now < e.first + 200_000_000)
  }

  lemma TickServesEntry(p: Pcb, now: nat, e: QueueEntry)
    requires Tick(p, now).pcb.state != Closed && e in Tick(p, now).pcb.queue
    requires forall f :: f in p.queue ==> Paced(f)
    ensures now < e.last + e.rto && (e.last == e.first ==> now < e.first + 200_000_000)
  {
    var q := Tick(p, now).pcb;
    var i :| 0 <= i < |q.queue| && q.queue[i] == e;
    assert Paced(p.queue[i]);
  }

  /** After a timer run that leaves the block open nothing is overdue. */
  lemma TickServes(p: Pcb, h: Hist, now: nat)
    requires Inv(p, h) && Tick(p, now).pcb.state != Closed
    ensures NothingOverdue(Tick(p, now).pcb, now)
    ensures var q := Tick(p, now).pcb;
      |q.queue| == |p.queue| && forall i :: 0 <= i < |q.queue| ==> SameEntry(p.queue[i], q.queue[i])
  {
    forall e | e in Tick(p, now).pcb.queue
      ensures now < e.last + e.rto && (e.last == e.first ==> now < e.first + 200_000_000)
    {
      TickServesEntry(p, now, e);
    }
  }

  /** A timer run closes an open block exactly if something in its queue was first sent 12 seconds ago or earlier, or
      its TIME_WAIT is over; only the latter frees it. */
  lemma TimerClosesIff(p: Pcb, now: nat)
    requires p.state != Closed
    ensures Tick(p, now).pcb.state == Closed <==>
      || (p.state == TimeWait && p.twTimer < now)
      || (exists e :: e in p.queue && e.first + 12_000_000_000 <= now)
    ensures Tick(p, now).release <==> p.state == TimeWait && p.twTimer < now
  {
  }

  /** In every run: after a timer run that leaves the block open, every entry has its next timeout ahead of it, an entry
      that went out only once did so less than 200 ms ago, and the entries that were sent again are on the wire. */
  lemma OverdueIsSentAgain(b: Birth, t: seq<Conn>, evs: seq<Event>, i: nat)
    requires IsRun(b, t, evs) && i < |evs| && evs[i].Timer? && t[i + 1].p.state != Closed
    ensures NothingOverdue(t[i + 1].p, evs[i].now) && |t[i + 1].p.queue| == |t[i].p.queue|
    ensures forall k :: 0 <= k < |t[i].p.queue| ==>
      && SameEntry(t[i].p.queue[k], t[i + 1].p.queue[k])
      && EntryServed(t[i].p, evs[i], t[i + 1].p.queue[k])
  {
    R.RunKeeps(b, t, evs, i);
    assert Leads(t[i], evs[i], t[i + 1]);
    TickServes(t[i].p, t[i].h, evs[i].now);
    forall e | e in t[i + 1].p.queue
      ensures EntryServed(t[i].p, evs[i], e)
    {
      QueuedIsSent(t[i].p, evs[i], e);
    }
  }
}
