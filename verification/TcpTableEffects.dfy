/** The same effects on whole tables: every live block gets its share of a timer run, and what a block owes its peer
    is on the wire when the lock is released. */
module TcpTableEffects {
  import opened Wrappers
  import opened Words
  import opened Inet
  import opened TcpPcb
  import opened TcpTable
  import opened TcpOps
  import opened TcpRefine
  import C = TcpConn
  import E = TcpEffects
  import R = TcpRuns

  /** What a block sends in a section is on the wire after it, and nothing ever leaves the wire. */
  lemma ApplySends(s: Sys, d: nat, r: Reaction)
    requires Live(s.pcbs, d)
    ensures s.wire <= Apply(s, d, r).wire && r.sent <= Apply(s, d, r).wire
  {
  }

  /** Without a join, a section leaves every other block that survives it as it was. */
  lemma ApplyKeepsOthers(s: Sys, d: nat, r: Reaction)
    requires Live(s.pcbs, d) && !r.join
    ensures |Apply(s, d, r).pcbs| == |s.pcbs|
    ensures forall i: nat :: Live(Apply(s, d, r).pcbs, i) ==>
      Live(s.pcbs, i) && Apply(s, d, r).pcbs[i] == if i == d then Some(r.pcb) else s.pcbs[i]
  {
  }

  lemma {:induction false} TimerKeepsWire(s: Sys, d: nat, now: nat)
    ensures s.wire <= TimerFrom(s, d, now).wire
    decreases |s.pcbs| - d
  {
    if d < |s.pcbs| {
      if s.pcbs[d].None? {
        TimerKeepsWire(s, d + 1, now);
      } else {
        ApplySends(s, d, Tick(s.pcbs[d].value, now));
        ApplyKeepsOthers(s, d, Tick(s.pcbs[d].value, now));
        TimerKeepsWire(Apply(s, d, Tick(s.pcbs[d].value, now)), d + 1, now);
      }
    }
  }

  /** Block `p` took its share of a timer run that left `q` and this wire. */
  ghost predicate Ticked(p: Pcb, now: nat, q: Pcb, wire: set<Packet>) {
    q == Tick(p, now).pcb && Tick(p, now).sent <= wire
  }

  /** A timer run reaches every block it leaves, exactly once, from the slot on where it starts. */
  lemma {:induction false} TimerReaches(s: Sys, d: nat, now: nat, i: nat)
    requires Live(TimerFrom(s, d, now).pcbs, i)
    ensures Live(s.pcbs, i)
    ensures i < d ==> TimerFrom(s, d, now).pcbs[i] == s.pcbs[i]
    ensures i >= d ==> Ticked(s.pcbs[i].value, now, TimerFrom(s, d, now).pcbs[i].value, TimerFrom(s, d, now).wire)
    decreases |s.pcbs| - d
  {
    if d < |s.pcbs| {
      if s.pcbs[d].None? {
        TimerReaches(s, d + 1, now, i);
      } else {
        var r := Tick(s.pcbs[d].value, now);
        ApplySends(s, d, r);
        ApplyKeepsOthers(s, d, r);
        TimerReaches(Apply(s, d, r), d + 1, now, i);
        TimerKeepsWire(Apply(s, d, r), d + 1, now);
      }
    }
  }

  lemma TickedServes(p: Pcb, h: C.Hist, now: nat, q: Pcb, wire: set<Packet>)
    requires C.Inv(p, h) && Ticked(p, now, q, wire) && q.state != Closed
    ensures E.NothingOverdue(q, now)
    ensures forall e :: e in q.queue ==> e in p.queue || (e.last == now && E.OnTheWire(wire, q, e))
  {
    E.TickServes(p, h, now);
    forall e | e in q.queue
      ensures e in p.queue || (e.last == now && E.OnTheWire(wire, q, e))
    {
      E.QueuedIsSent(p, Timer(now), e);
    }
  }

  /** Retransmission in every run of the stack: after a timer run, no entry of any open block is overdue, an entry that
      went out only once did so less than 200 ms ago, and every entry whose timer moved went out in this run, with its
      own number, flags and text. */
  lemma TimerServesTable(t: seq<Sys>, cs: seq<seq<Conn>>, ops: seq<Op>, i: nat, d: nat)
    requires IsTrackedRun(t, cs, ops) && i < |ops| && ops[i].TimerOp?
    requires Live(t[i + 1].pcbs, d) && t[i + 1].pcbs[d].value.state != Closed
    ensures Live(t[i].pcbs, d) && E.NothingOverdue(t[i + 1].pcbs[d].value, ops[i].now)
    ensures forall e :: e in t[i + 1].pcbs[d].value.queue ==>
      || e in t[i].pcbs[d].value.queue
      || (e.last == ops[i].now && E.OnTheWire(t[i + 1].wire, t[i + 1].pcbs[d].value, e))
  {
    TimerReaches(t[i], 0, ops[i].now, d);
    TableKeepsInvariant(t, cs, ops, i, d);
    TickedServes(t[i].pcbs[d].value, cs[i][d].h, ops[i].now, t[i + 1].pcbs[d].value, t[i + 1].wire);
  }

  // ---------------------------------------------------------------- arrivals

  /** The segment is one for the live block `d`, which does not spawn a child for it. */
  predicate Selected(s: Sys, op: Op, d: nat) {
    op.DeliverOp? && Select(s.pcbs, op.local, op.remote) == Some(d) && Live(s.pcbs, d)
    && !Spawns(s.pcbs[d].value, op.seg)
  }

  /** The text that `q` has more than `p`, and everything else that moved RCV.NXT, is acknowledged on the wire. */
  ghost predicate AckedOnWire(p: Pcb, q: Pcb, wire: set<Packet>) {
    && (E.Gain(p, q) > 0 ==> E.Acked(wire, q, Wrap(p.rcv.nxt + E.Gain(p, q))))
    && (q.rcv.nxt != p.rcv.nxt ==> E.Acked(wire, q, q.rcv.nxt))
  }

  lemma ReactionAcks(p: Pcb, r: Reaction, wire: set<Packet>)
    requires E.AcksText(p, r) && E.AcksAdvance(p, r) && r.sent <= wire
    ensures AckedOnWire(p, r.pcb, wire)
  {
  }

  /** The block that a segment selects reacts to it, and its packets are on the wire. */
  lemma SelectedReacts(s: Sys, op: Op, d: nat)
    requires ValidSys(s) && Selected(s, op, d)
    ensures var r := Arrive(s.pcbs[d].value, op.seg, op.local, op.remote, op.isn, op.now);
      && r.sent <= Do(s, op).wire
      && (Live(Do(s, op).pcbs, d) <==> !r.release)
      && (Live(Do(s, op).pcbs, d) ==> Do(s, op).pcbs[d] == Some(r.pcb))
  {
    SelectSpec(s.pcbs, op.local, op.remote);
    var p := s.pcbs[d].value;
    var r := Arrive(p, op.seg, op.local, op.remote, op.isn, op.now);
    ArriveIdentity(p, op.seg, op.local, op.remote, op.isn, op.now);
    ApplySends(s, d, r);
    SelectedStays(s, d, r);
    JoinOrRelease(p, Arrival(op.seg, op.local, op.remote, op.isn, op.now));
  }

  lemma SelectedStays(s: Sys, d: nat, r: Reaction)
    requires ValidSys(s) && Live(s.pcbs, d) && SameIdentity(s.pcbs[d].value, r.pcb)
    ensures Live(Apply(s, d, r).pcbs, d) <==> !r.release
    ensures !r.release ==> Apply(s, d, r).pcbs[d] == Some(r.pcb)
  {
    var s1 := Reacted(s, d, r);
    ReactedValid(s, d, r);
    JoinedValid(s1, d);
    ReachCloses((if r.join then Joined(s1, d) else s1).pcbs, d);
  }

  /** When the lock is released, the text that a block took from a segment, and everything else that moved its RCV.NXT,
      has its ACK on the wire. */
  lemma TakenIsAckedOnWire(s: Sys, op: Op, d: nat)
    requires ValidSys(s) && Selected(s, op, d) && Live(Do(s, op).pcbs, d)
    ensures AckedOnWire(s.pcbs[d].value, Do(s, op).pcbs[d].value, Do(s, op).wire)
  {
    var p, ev := s.pcbs[d].value, Arrival(op.seg, op.local, op.remote, op.isn, op.now);
    SelectedReacts(s, op, d);
    E.TextIsAcked(p, ev);
    E.AdvanceIsAcked(p, ev);
    ReactionAcks(p, Step(p, ev), Do(s, op).wire);
  }

  /** A reset frees the block it selects exactly if it acknowledges the SYN of SYN_SENT or falls into the window of a
      synchronized block; otherwise the block stays as it is. */
  lemma ResetFreesBlockIff(s: Sys, op: Op, d: nat)
    requires ValidSys(s) && Selected(s, op, d) && E.BareReset(op.seg)
    ensures !Live(Do(s, op).pcbs, d) <==> E.Kills(s.pcbs[d].value, op.seg)
    ensures Live(Do(s, op).pcbs, d) ==> Do(s, op).pcbs[d] == s.pcbs[d]
  {
    SelectedReacts(s, op, d);
    E.ResetFreesIff(s.pcbs[d].value, Arrival(op.seg, op.local, op.remote, op.isn, op.now));
  }

  // ---------------------------------------------------------------- segments without a connection

  /** A reset to the sender of the segment, in the form that section 3.4 of RFC 793 gives it. */
  predicate Refuses(pk: Packet, op: Op)
    requires op.DeliverOp?
  {
    && pk.src == op.local && pk.dst == op.remote && pk.seg.data == [] && E.BareReset(pk.seg)
    && if op.seg.flg.ack then pk.seg.sn == op.seg.ack && !pk.seg.flg.ack
       else pk.seg.sn == 0 && pk.seg.flg.ack && pk.seg.ack == Add32(op.seg.sn, op.seg.Len())
  }

  /** A segment that no live block matches leaves the table as it is; unless it is a reset itself, it is refused. */
  lemma UnknownIsRefused(s: Sys, op: Op)
    requires op.DeliverOp? && forall j: nat :: Live(s.pcbs, j) ==> !Matches(s.pcbs[j].value, op.local, op.remote)
    ensures Do(s, op).pcbs == s.pcbs && Do(s, op).gens == s.gens
    ensures op.seg.flg.rst ==> Do(s, op).wire == s.wire
    ensures !op.seg.flg.rst ==> exists pk :: pk in Do(s, op).wire && Refuses(pk, op)
  {
    SelectSpec(s.pcbs, op.local, op.remote);
    if !op.seg.flg.rst {
      var seg := if op.seg.flg.ack then Segment(op.seg.ack, 0, RST, 0, [])
                 else Segment(0, Add32(op.seg.sn, op.seg.Len()), RST_ACK, 0, []);
      assert Refuses(Packet(op.local, op.remote, seg), op);
    }
  }

  /** A SYN for a listening socket gets a block of its own exactly if the backlog and the table have room: a child in
      SYN_RECEIVED, in the first free slot, that answers from its own ISS and expects what follows the SYN. */
  lemma SynGetsBlockIff(s: Sys, op: Op, d: nat)
    requires op.DeliverOp? && Select(s.pcbs, op.local, op.remote) == Some(d) && Live(s.pcbs, d)
    requires s.pcbs[d].value.state == Listen && s.pcbs[d].value.mode == Socket
    requires op.seg.flg.syn && !op.seg.flg.ack && !op.seg.flg.rst
    ensures var room := |s.pcbs[d].value.backlog| < s.pcbs[d].value.backlogMax && HasRoom(s.pcbs);
      if room then GotBlock(s, op, d, FirstFree(s.pcbs, 0)) else Do(s, op).pcbs == s.pcbs && Do(s, op).wire == s.wire
  {
    SelectSpec(s.pcbs, op.local, op.remote);
    if |s.pcbs[d].value.backlog| < s.pcbs[d].value.backlogMax && HasRoom(s.pcbs) {
      var k := FirstFree(s.pcbs, 0);
      var q := Do(s, op).pcbs[k].value;
      assert E.Acknowledges(SynAckOf(q), q, Add32(op.seg.sn, 1));
    }
  }

  ghost predicate GotBlock(s: Sys, op: Op, d: nat, k: nat)
    requires op.DeliverOp?
  {
    var t := Do(s, op);
    && !Live(s.pcbs, k) && Live(t.pcbs, k)
    && (forall j: nat :: j != k && j < |s.pcbs| ==> j < |t.pcbs| && t.pcbs[j] == s.pcbs[j])
    && var q := t.pcbs[k].value;
       && q.state == SynReceived && q.parent == Some(d) && q.local == op.local && q.remote == op.remote
       && q.irs == op.seg.sn && q.rcv.nxt == Add32(op.seg.sn, 1) && q.iss == q.snd.una == op.isn
       && q.snd.nxt == Add32(op.isn, 1)
       && exists pk :: pk in t.wire && E.Acknowledges(pk, q, Add32(op.seg.sn, 1)) && pk.seg.flg.syn
                       && pk.seg.sn == op.isn
  }

  // ---------------------------------------------------------------- a listener that closes

  /** Block `k` is freed, its task is notified, and its peer is told. */
  ghost predicate Dismissed(s: Sys, t: Sys, k: nat)
    requires Live(s.pcbs, k)
  {
    var p := s.pcbs[k].value;
    && !Live(t.pcbs, k)
    && p.task < |s.gens| == |t.gens| && t.gens[p.task] == s.gens[p.task] + 1
    && exists pk :: pk in t.wire && pk.src == p.local && pk.dst == p.remote && E.BareReset(pk.seg)
                    && pk.seg.sn == p.snd.nxt
  }

  /** A listener that closes takes the connections along that nobody has accepted. */
  lemma ClosingListenerDismisses(s: Sys, d: nat, now: nat, k: nat)
    requires ValidSys(s) && Live(s.pcbs, d) && s.pcbs[d].value.state == Listen
    requires k in s.pcbs[d].value.backlog && k != d && Live(s.pcbs, k) && s.pcbs[k].value.state != Closed
    ensures Dismissed(s, Do(s, CloseOp(d, now)), k)
  {
    var r := Close(s.pcbs[d].value, now);
    var s1 := Reacted(s, d, r);
    ReachCloses(s1.pcbs, d);
    assert k in Reach(s1.pcbs, d) && k in ReachPlus(s1.pcbs, d);
    assert s1.pcbs[k].value.task in TasksOf(s1.pcbs, Reach(s1.pcbs, d));
    var pk := Transmit(s.pcbs[k].value, RST, []);
    assert pk in Resets(s1.pcbs, ReachPlus(s1.pcbs, d));
  }
}
