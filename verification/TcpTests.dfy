/** The u32 arithmetic of the engine against the modular tests of section 3.3 of RFC 793. */
module TcpTests {
  import opened Words
  import opened Inet
  import opened TcpPcb
  import opened TcpConn

  // ---------------------------------------------------------------- segment acceptability

  /** RCV.NXT =< SEQ < RCV.NXT+RCV.WND, with all arithmetic modulo 2^32. */
  predicate InWindow(rcv: RcvVars, sn: u32) {
    Sub32(sn, rcv.nxt) < rcv.wnd
  }

  /** The acceptability table of section 3.3. */
  predicate RfcAcceptable(rcv: RcvVars, seg: Segment) {
    if seg.Len() == 0 then
      if rcv.wnd == 0 then seg.sn == rcv.nxt else InWindow(rcv, seg.sn)
    else
      rcv.wnd > 0 && (InWindow(rcv, seg.sn) || InWindow(rcv, Sub32(Add32(seg.sn, seg.Len()), 1)))
  }

  /** The plain comparisons accept nothing the modular test refuses. */
  lemma AcceptableIsSound(rcv: RcvVars, seg: Segment)
    ensures Acceptable(rcv, seg) ==> RfcAcceptable(rcv, seg)
  {
  }

  /** They agree with it on every segment exactly when the window does not reach 2^32. */
  lemma AcceptableIsExactIff(rcv: RcvVars)
    ensures (forall seg: Segment :: Acceptable(rcv, seg) == RfcAcceptable(rcv, seg))
            <==> rcv.wnd == 0 || rcv.nxt + rcv.wnd < M32
  {
    if rcv.wnd != 0 && rcv.nxt + rcv.wnd >= M32 {
      var seg := Segment(rcv.nxt, 0, ACK, 0, []);
      assert RfcAcceptable(rcv, seg) && !Acceptable(rcv, seg);
    }
  }

  /** The test for a new ACK: SND.UNA < SEG.ACK =< SND.NXT, modulo 2^32. */
  predicate RfcNewAck(una: u32, ack: u32, nxt: u32) {
    0 < Sub32(ack, una) <= Sub32(nxt, una)
  }

  /** It too is sound, and agrees on every ACK exactly when the unacknowledged interval does not wrap. */
  lemma NewAckIsExactIff(una: u32, nxt: u32)
    ensures forall ack: u32 :: una < ack <= nxt ==> RfcNewAck(una, ack, nxt)
    ensures (forall ack: u32 :: (una < ack <= nxt) == RfcNewAck(una, ack, nxt)) <==> una <= nxt
  {
    if nxt < una {
      assert RfcNewAck(una, nxt, nxt) && !(una < nxt <= nxt);
    }
  }

  // ---------------------------------------------------------------- in-flight bound

  /** A block whose FIN may be among the data in flight. */
  predicate MayHaveFin(s: State) {
    SelfClosed(s) || s == Closed || s == Listen
  }

  /** At most a window, and the FIN, is in flight; SYN_SENT has sent its SYN only. */
  predicate FlightInv(p: Pcb) {
    && InFlight(p) <= 65535 + (if MayHaveFin(p.state) then 1 else 0)
    && (p.state == SynSent ==> p.snd.una == p.iss && p.snd.nxt == Add32(p.iss, 1))
  }

  /** The sending side is untouched, or a new ACK moved SND.UNA forward. */
  predicate Shrinks(p: Pcb, q: Pcb) {
    && (q.snd.una == p.snd.una || InFlight(q) < InFlight(p))
    && InFlight(q) <= InFlight(p)
  }

  lemma AckShrinks(p: Pcb, seg: Segment, local: Endpoint, remote: Endpoint, now: nat)
    requires FlightInv(p)
    ensures var q := AckStage(p, seg, local, remote, now).pcb; Shrinks(p, q) && FlightInv(q)
  {
  }

  lemma AfterAckShrinks(a: Stage, seg: Segment, now: nat)
    requires FlightInv(a.pcb)
    ensures var q := AfterAck(a, seg, now).pcb; q.snd == a.pcb.snd && FlightInv(q)
  {
    var t := TextStage(a.pcb, seg).pcb;
    assert t.snd == a.pcb.snd && t.state == a.pcb.state && t.iss == a.pcb.iss;
  }

  lemma SynchronizedShrinks(p: Pcb, seg: Segment, local: Endpoint, remote: Endpoint, now: nat)
    requires FlightInv(p) && Synchronized(p.state)
    ensures var q := OnSynchronized(p, seg, local, remote, now).pcb; Shrinks(p, q) && FlightInv(q)
  {
    AckShrinks(p, seg, local, remote, now);
    AfterAckShrinks(AckStage(p, seg, local, remote, now), seg, now);
  }

  lemma SynSentShrinks(p: Pcb, seg: Segment, local: Endpoint, remote: Endpoint, now: nat)
    requires FlightInv(p) && p.state == SynSent
    ensures var q := OnSynSent(p, seg, local, remote, now).pcb; Shrinks(p, q) && FlightInv(q)
  {
  }

  /** Every event, legal or not and through wrap-around, keeps the bound; an arrival only shrinks what is in flight
      unless it opens the connection; `send` stays within the last recorded window. */
  lemma StepFlight(p: Pcb, ev: Event)
    requires FlightInv(p)
    ensures FlightInv(Step(p, ev).pcb)
    ensures ev.Arrival? && p.state != Listen ==> Shrinks(p, Step(p, ev).pcb)
    ensures ev.UserSend? && Chunk(p, ev.rest) != [] ==> InFlight(Step(p, ev).pcb) <= p.snd.wnd
  {
    if ev.Arrival? && Synchronized(p.state) {
      SynchronizedShrinks(p, ev.seg, ev.local, ev.remote, ev.now);
    } else if ev.Arrival? && p.state == SynSent {
      SynSentShrinks(p, ev.seg, ev.local, ev.remote, ev.now);
    } else if ev.UserSend? {
      SendStays(p, ev.rest, ev.now);
    }
  }

  /** `send` fills the window at most, and takes no more than a segment. */
  lemma SendStays(p: Pcb, rest: seq<u8>, now: nat)
    requires FlightInv(p)
    ensures FlightInv(Send(p, rest, now).pcb)
    ensures Chunk(p, rest) != [] ==> InFlight(Send(p, rest, now).pcb) <= p.snd.wnd && |Chunk(p, rest)| <= p.mss
  {
    SendShape(p, rest, now);
  }

  /** Any sequence of events whatever, starting from a fresh block. */
  function Drive(task: nat, evs: seq<Event>): Pcb {
    if evs == [] then EmptyPcb(task) else Step(Drive(task, evs[..|evs| - 1]), evs[|evs| - 1]).pcb
  }

  lemma {:induction false} InFlightBound(task: nat, evs: seq<Event>)
    ensures FlightInv(Drive(task, evs)) && InFlight(Drive(task, evs)) <= 65536
  {
    if evs != [] {
      InFlightBound(task, evs[..|evs| - 1]);
      StepFlight(Drive(task, evs[..|evs| - 1]), evs[|evs| - 1]);
    }
  }

  // ---------------------------------------------------------------- the FIN step

  /** Processing a FIN acknowledges the text accepted plus the FIN exactly when the FIN comes in order and alone:
      an early FIN, or one that carries text, leaves RCV.NXT elsewhere. */
  lemma FinAcksExactlyIff(p: Pcb, h: Hist, seg: Segment, now: nat)
    requires RecvInv(p, h) && h.begun && h.synced && !h.finSeen && Synchronized(p.state) && seg.flg.fin
    ensures FinStage(p, seg, now).pcb.rcv.nxt == Wrap(p.irs + 1 + |h.accepted| + 1) <==> seg.sn == p.rcv.nxt
  {
    WrapStep(p.irs + 1 + |h.accepted|, 1);
  }
}
