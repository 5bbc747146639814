/** The connection state machine over whole runs: Figure 6 in section 3.2 of RFC 793, its rank, and its end. */
module TcpStates {
  import opened Words
  import opened Inet
  import opened TcpPcb
  import opened TcpConn
  import opened TcpQueue
  import opened TcpRuns

  /** The edges of Figure 6 that do not lead to CLOSED. */
  predicate Edge(s: State, t: State) {
    match s
    case Closed => t == Listen || t == SynSent
    case Listen => t == SynReceived
    case SynSent => t == SynReceived || t == Established
    case SynReceived => t == Established || t == FinWait1
    case Established => t == FinWait1 || t == CloseWait
    case FinWait1 => t == FinWait2 || t == Closing
    case FinWait2 => t == TimeWait
    case CloseWait => t == LastAck
    case Closing => t == TimeWait
    case _ => false
  }

  /** One segment can take two edges, its ACK the first and its FIN the second: from SYN_RECEIVED through ESTABLISHED to
      CLOSE_WAIT, and from FIN_WAIT1 through FIN_WAIT2 to TIME_WAIT. */
  predicate TwoEdges(s: State, t: State) {
    (s == SynReceived && t == CloseWait) || (s == FinWait1 && t == TimeWait)
  }

  predicate Follows(ev: Event, s: State, t: State) {
    s == t || t == Closed || Edge(s, t) || (ev.Arrival? && TwoEdges(s, t))
  }

  lemma AckFollows(p: Pcb, seg: Segment, local: Endpoint, remote: Endpoint, now: nat)
    requires Synchronized(p.state)
    ensures var a := AckStage(p, seg, local, remote, now);
      && (a.pcb.state == p.state || a.pcb.state == Closed || Edge(p.state, a.pcb.state))
      && (a.verdict == Continue && a.pcb.state != p.state ==> a.pcb.state in {Established, FinWait2, TimeWait})
      && (a.verdict == Continue && a.pcb.state == FinWait1 ==> seg.ack != a.pcb.snd.nxt)
  {
  }

  lemma AfterAckFollows(a: Stage, seg: Segment, now: nat)
    requires a.pcb.state != Closed
    requires a.pcb.state == FinWait1 ==> seg.ack != a.pcb.snd.nxt
    requires a.pcb.state != SynReceived
    ensures var q := AfterAck(a, seg, now).pcb; q.state == a.pcb.state || Edge(a.pcb.state, q.state)
    ensures a.pcb.state == TimeWait ==> AfterAck(a, seg, now).pcb.state == TimeWait
  {
    var t := TextStage(a.pcb, seg).pcb;
    assert t.state == a.pcb.state && t.snd == a.pcb.snd;
  }

  lemma SynchronizedFollows(p: Pcb, seg: Segment, local: Endpoint, remote: Endpoint, now: nat)
    requires Synchronized(p.state)
    ensures var t := OnSynchronized(p, seg, local, remote, now).pcb.state;
      p.state == t || t == Closed || Edge(p.state, t) || TwoEdges(p.state, t)
  {
    var a := AckStage(p, seg, local, remote, now);
    AckFollows(p, seg, local, remote, now);
    if a.verdict == Continue && a.pcb.state != SynReceived {
      AfterAckFollows(a, seg, now);
    }
  }

  /** Every step of a once-opened block follows Figure 6 or drops to CLOSED. */
  lemma StepFollows(c: Conn, ev: Event)
    requires Inv(c.p, c.h) && Legal(c, ev)
    ensures Follows(ev, c.p.state, Next(c, ev).p.state)
  {
    if ev.Arrival? && Synchronized(c.p.state) {
      SynchronizedFollows(c.p, ev.seg, ev.local, ev.remote, ev.now);
    }
  }

  /** So does every step of every run. */
  lemma RunFollows(b: Birth, t: seq<Conn>, evs: seq<Event>, i: nat)
    requires IsRun(b, t, evs) && i < |evs|
    ensures Follows(evs[i], t[i].p.state, t[i + 1].p.state)
  {
    RunKeeps(b, t, evs, i);
    assert Leads(t[i], evs[i], t[i + 1]);
    StepFollows(t[i], evs[i]);
  }

  /** Position on the way from a fresh block to a finished one. */
  function Rank(c: Conn): nat {
    if c.p.state == Closed then (if c.h.used then 7 else 0) else Height(c.p.state)
  }

  function Height(s: State): nat {
    match s
    case Closed => 0
    case Listen => 1
    case SynSent => 1
    case SynReceived => 2
    case Established => 3
    case FinWait1 => 4
    case CloseWait => 4
    case FinWait2 => 5
    case Closing => 5
    case LastAck => 5
    case TimeWait => 6
  }

  lemma FollowsRises(ev: Event, s: State, t: State)
    requires Follows(ev, s, t) && s != t && t != Closed
    ensures Height(s) < Height(t)
  {
  }

  /** A used block that dropped to CLOSED stays there. */
  lemma DeadStays(c: Conn, ev: Event)
    requires Legal(c, ev) && c.p.state == Closed && c.h.used
    ensures Next(c, ev).p.state == Closed && Next(c, ev).h.used
  {
  }

  lemma StepRank(c: Conn, ev: Event)
    requires Inv(c.p, c.h) && Legal(c, ev)
    ensures Next(c, ev).p.state != c.p.state ==> Rank(c) < Rank(Next(c, ev))
    ensures Next(c, ev).p.state == c.p.state ==> Rank(c) == Rank(Next(c, ev))
  {
    if c.p.state == Closed && c.h.used {
      DeadStays(c, ev);
    } else {
      StepFollows(c, ev);
      if Next(c, ev).p.state != c.p.state && Next(c, ev).p.state != Closed {
        FollowsRises(ev, c.p.state, Next(c, ev).p.state);
      }
    }
  }

  /** How often the state changes up to position `i` of a run. */
  ghost function Changes(t: seq<Conn>, i: nat): nat
    requires i < |t|
  {
    if i == 0 then 0 else Changes(t, i - 1) + (if t[i].p.state != t[i - 1].p.state then 1 else 0)
  }

  lemma RankAlong(c: Conn, ev: Event, d: Conn)
    requires Inv(c.p, c.h) && Leads(c, ev, d)
    ensures Rank(d) >= Rank(c) + (if d.p.state != c.p.state then 1 else 0)
  {
    StepRank(c, ev);
  }

  lemma RankAt(b: Birth, t: seq<Conn>, evs: seq<Event>, k: nat)
    requires IsRun(b, t, evs) && k < |evs|
    ensures Rank(t[k + 1]) >= Rank(t[k]) + (if t[k + 1].p.state != t[k].p.state then 1 else 0)
  {
    RunKeeps(b, t, evs, k);
    RankAlong(t[k], evs[k], t[k + 1]);
  }

  /** A connection changes state boundedly often: the rank pays for every change. */
  lemma {:induction false} BoundedChanges(b: Birth, t: seq<Conn>, evs: seq<Event>, i: nat)
    requires IsRun(b, t, evs) && i < |t|
    ensures Changes(t, i) <= Rank(t[i]) - Rank(t[0]) && Changes(t, i) <= 7
  {
    if i > 0 {
      BoundedChanges(b, t, evs, i - 1);
      RankAt(b, t, evs, i - 1);
    }
  }

  lemma ExtendsTransitive(c: Conn, d: Conn, e: Conn)
    requires Extends(c.p, c.h, d.p, d.h) && Extends(d.p, d.h, e.p, e.h)
    ensures Extends(c.p, c.h, e.p, e.h)
  {
  }

  lemma ExtendsAlong(c: Conn, ev: Event, d: Conn)
    requires Leads(c, ev, d) && Inv(c.p, c.h)
    ensures Extends(c.p, c.h, d.p, d.h)
  {
    StepExtends(c, ev);
  }

  lemma ExtendsAt(b: Birth, t: seq<Conn>, evs: seq<Event>, k: nat)
    requires IsRun(b, t, evs) && k < |evs|
    ensures Extends(t[k].p, t[k].h, t[k + 1].p, t[k + 1].h)
  {
    RunKeeps(b, t, evs, k);
    ExtendsAlong(t[k], evs[k], t[k + 1]);
  }

  /** Along a run: no text is accepted once a FIN was processed, none is written once the own FIN was sent, and
      ISS and IRS are settled once. */
  lemma {:induction false} RunExtends(b: Birth, t: seq<Conn>, evs: seq<Event>, i: nat, j: nat)
    requires IsRun(b, t, evs) && i <= j < |t|
    ensures Extends(t[i].p, t[i].h, t[j].p, t[j].h)
    decreases j
  {
    if i < j {
      RunExtends(b, t, evs, i, j - 1);
      ExtendsAt(b, t, evs, j - 1);
      ExtendsTransitive(t[i], t[j - 1], t[j]);
    }
  }

  // ---------------------------------------------------------------- orderly close

  /** In FIN_WAIT2 everything is acknowledged; while the own FIN is not acknowledged, something is in flight. */
  predicate Settled(p: Pcb) {
    p.state == FinWait2 ==> p.snd.una == p.snd.nxt
  }

  predicate Unacked(p: Pcb) {
    p.state in {FinWait1, Closing, LastAck} ==> p.snd.una != p.snd.nxt
  }

  lemma AckSettles(p: Pcb, seg: Segment, local: Endpoint, remote: Endpoint, now: nat)
    requires Synchronized(p.state)
    ensures p.snd.una <= p.snd.nxt && Settled(p) ==> Settled(AckStage(p, seg, local, remote, now).pcb)
    ensures Unacked(p) ==> Unacked(AckStage(p, seg, local, remote, now).pcb)
  {
  }

  lemma AfterAckSettles(a: Stage, seg: Segment, now: nat)
    ensures Settled(a.pcb) ==> Settled(AfterAck(a, seg, now).pcb)
    ensures Unacked(a.pcb) ==> Unacked(AfterAck(a, seg, now).pcb)
  {
    var t := TextStage(a.pcb, seg).pcb;
    assert t.state == a.pcb.state && t.snd == a.pcb.snd;
    assert FinStage(t, seg, now).pcb.snd == t.snd;
  }

  lemma SynchronizedSettles(p: Pcb, seg: Segment, local: Endpoint, remote: Endpoint, now: nat)
    requires Synchronized(p.state)
    ensures var q := OnSynchronized(p, seg, local, remote, now).pcb;
      (p.snd.una <= p.snd.nxt && Settled(p) ==> Settled(q)) && (Unacked(p) ==> Unacked(q))
  {
    AckSettles(p, seg, local, remote, now);
    AfterAckSettles(AckStage(p, seg, local, remote, now), seg, now);
  }

  lemma OtherwiseSettled(p: Pcb, ev: Event)
    requires Settled(p) && !(ev.Arrival? && Synchronized(p.state))
    ensures Settled(Step(p, ev).pcb)
  {
  }

  lemma SettlesAlong(c: Conn, ev: Event, d: Conn)
    requires Leads(c, ev, d) && Settled(c.p) && c.p.snd.una <= c.p.snd.nxt
    ensures Settled(d.p)
  {
    if ev.Arrival? && Synchronized(c.p.state) {
      SynchronizedSettles(c.p, ev.seg, ev.local, ev.remote, ev.now);
    } else {
      OtherwiseSettled(c.p, ev);
    }
  }

  lemma OpeningSettled(c: Conn, ev: Event, d: Conn)
    requires Leads(c, ev, d) && Inv(c.p, c.h) && !c.h.begun
    ensures Settled(d.p)
  {
  }

  /** Everything is acknowledged in FIN_WAIT2, unless the sender wrapped. */
  predicate SettledUnlessWrapped(p: Pcb) {
    p.snd.una <= p.snd.nxt ==> Settled(p)
  }

  /** A wrapped sender stays wrapped, so one that is not wrapped never was. */
  lemma SettleAt(b: Birth, t: seq<Conn>, evs: seq<Event>, k: nat)
    requires IsRun(b, t, evs) && k < |evs| && SettledUnlessWrapped(t[k].p)
    ensures SettledUnlessWrapped(t[k + 1].p)
  {
    RunKeeps(b, t, evs, k);
    var c, ev, d := t[k], evs[k], t[k + 1];
    if !c.h.begun {
      OpeningSettled(c, ev, d);
    } else if c.p.snd.nxt < c.p.snd.una {
      WedgeAt(b, t, evs, k);
    } else {
      SettlesAlong(c, ev, d);
    }
  }

  lemma {:induction false} RunSettles(b: Birth, t: seq<Conn>, evs: seq<Event>, i: nat)
    requires IsRun(b, t, evs) && i < |t|
    ensures SettledUnlessWrapped(t[i].p)
  {
    if i > 0 {
      RunSettles(b, t, evs, i - 1);
      SettleAt(b, t, evs, i - 1);
    }
  }

  /** FIN_WAIT2 has everything acknowledged and nothing left to retransmit, if and only if the sequence space did not
      wrap: the own FIN of a wrapped sender can be taken for acknowledged while it is still queued. */
  lemma FinWait2IsQuietIff(c: Conn)
    requires Reachable(c) && c.p.state == FinWait2
    ensures c.p.snd.una == c.p.snd.nxt && c.p.queue == [] <==> c.p.snd.una <= c.p.snd.nxt
  {
    var b, t, evs :| IsRun(b, t, evs) && t[|evs|] == c;
    RunKeeps(b, t, evs, |evs|);
    WrappedIff(c.p.snd.una, Top(c.p, c.h), c.p.snd.nxt);
    if c.p.snd.una <= c.p.snd.nxt {
      RunSettles(b, t, evs, |evs|);
    }
  }

  // ---------------------------------------------------------------- the own FIN stays queued until it is acknowledged

  lemma {:induction false} RunUnacked(b: Birth, t: seq<Conn>, evs: seq<Event>, i: nat)
    requires IsRun(b, t, evs) && i < |t|
    ensures Unacked(t[i].p)
  {
    if i > 0 {
      RunUnacked(b, t, evs, i - 1);
      UnackedAt(b, t, evs, i - 1);
    }
  }

  lemma UnackedAt(b: Birth, t: seq<Conn>, evs: seq<Event>, k: nat)
    requires IsRun(b, t, evs) && k < |evs| && Unacked(t[k].p)
    ensures Unacked(t[k + 1].p)
  {
    RunKeeps(b, t, evs, k);
    UnackedAlong(t[k], evs[k], t[k + 1]);
  }

  lemma UnackedAlong(c: Conn, ev: Event, d: Conn)
    requires Leads(c, ev, d) && Inv(c.p, c.h) && Unacked(c.p)
    ensures Unacked(d.p)
  {
    if ev.Arrival? && Synchronized(c.p.state) {
      SynchronizedSettles(c.p, ev.seg, ev.local, ev.remote, ev.now);
    } else if ev.UserClose? {
      CloseUnacked(c.p, c.h, ev.now);
    } else {
      OtherwiseUnacked(c.p, ev);
    }
  }

  lemma CloseUnacked(p: Pcb, h: Hist, now: nat)
    requires Inv(p, h) && Unacked(p)
    ensures Unacked(Close(p, now).pcb)
  {
    if p.state in {SynReceived, Established, CloseWait} {
      FlightGrows(p.snd.nxt, p.snd.una, 1);
    }
  }

  lemma OtherwiseUnacked(p: Pcb, ev: Event)
    requires Unacked(p) && !(ev.Arrival? && Synchronized(p.state)) && !ev.UserClose?
    ensures Unacked(Step(p, ev).pcb)
  {
  }

  // ---------------------------------------------------------------- entering TIME_WAIT

  /** What a segment that takes a block to TIME_WAIT does to its sending side: in CLOSING nothing; in FIN_WAIT1, and in
      FIN_WAIT2 if everything was acknowledged there, it leaves everything acknowledged, unless the sender wrapped. */
  lemma TimeWaitEntry(p: Pcb, seg: Segment, local: Endpoint, remote: Endpoint, now: nat)
    requires Synchronized(p.state) && p.state != TimeWait && Unacked(p) && SettledUnlessWrapped(p)
    requires OnSynchronized(p, seg, local, remote, now).pcb.state == TimeWait
    ensures var q := OnSynchronized(p, seg, local, remote, now).pcb;
      && q.twTimer == now + TIMEWAIT && p.state in {FinWait1, FinWait2, Closing}
      && (p.state == Closing ==> q.queue == p.queue && q.snd == p.snd)
      && (p.state != Closing && p.snd.una <= p.snd.nxt ==> q.snd.una == q.snd.nxt)
  {
    var a := AckStage(p, seg, local, remote, now);
    AckFollows(p, seg, local, remote, now);
    assert TextStage(a.pcb, seg).pcb.snd == a.pcb.snd && TextStage(a.pcb, seg).pcb.state == a.pcb.state;
    if p.state == Closing {
      assert TextStage(a.pcb, seg).pcb == a.pcb;
    }
  }

  /** The step of a run at which a block enters TIME_WAIT: an arrival in FIN_WAIT1, FIN_WAIT2 or CLOSING. Its queue is
      then empty if and only if it did not come from CLOSING and its sender did not wrap; from CLOSING it keeps its
      queue, and with it the FIN that was just acknowledged. */
  lemma TimeWaitStarts(b: Birth, t: seq<Conn>, evs: seq<Event>, i: nat)
    requires IsRun(b, t, evs) && i < |evs| && t[i].p.state != TimeWait && t[i + 1].p.state == TimeWait
    ensures evs[i].Arrival? && t[i].p.state in {FinWait1, FinWait2, Closing}
    ensures t[i + 1].alive && t[i + 1].p.twTimer == evs[i].now + TIMEWAIT
    ensures t[i + 1].p.queue == [] <==> t[i].p.state != Closing && t[i].p.snd.una <= t[i].p.snd.nxt
    ensures t[i].p.state == Closing ==> t[i + 1].p.queue == t[i].p.queue
  {
    EntersAt(b, t, evs, i);
    RunKeeps(b, t, evs, i);
    RunKeeps(b, t, evs, i + 1);
    EmptyIffAcked(t[i]);
    EmptyIffAcked(t[i + 1]);
    if t[i].p.snd.nxt < t[i].p.snd.una {
      WedgeAt(b, t, evs, i);
    }
  }

  lemma EntersAt(b: Birth, t: seq<Conn>, evs: seq<Event>, i: nat)
    requires IsRun(b, t, evs) && i < |evs| && t[i].p.state != TimeWait && t[i + 1].p.state == TimeWait
    ensures evs[i].Arrival? && t[i].p.state in {FinWait1, FinWait2, Closing}
    ensures t[i + 1].alive && t[i + 1].p.twTimer == evs[i].now + TIMEWAIT && Unacked(t[i].p)
    ensures t[i].p.state == Closing ==> t[i + 1].p.queue == t[i].p.queue && t[i + 1].p.snd == t[i].p.snd
    ensures t[i].p.state != Closing && t[i].p.snd.una <= t[i].p.snd.nxt ==> t[i + 1].p.snd.una == t[i + 1].p.snd.nxt
  {
    RunFollows(b, t, evs, i);
    RunUnacked(b, t, evs, i);
    RunSettles(b, t, evs, i);
    assert Leads(t[i], evs[i], t[i + 1]);
    OnlyArrivalsEnter(t[i].p, evs[i]);
    TimeWaitEntry(t[i].p, evs[i].seg, evs[i].local, evs[i].remote, evs[i].now);
    ReleaseCloses(t[i].p, evs[i]);
  }

  lemma EmptyIffAcked(c: Conn)
    requires Inv(c.p, c.h) && ExactOnceBegun(c.p, c.h) && Synchronized(c.p.state)
    ensures c.p.queue == [] <==> c.p.snd.una == c.p.snd.nxt
  {
    WrappedIff(c.p.snd.una, Top(c.p, c.h), c.p.snd.nxt);
  }

  lemma OnlyArrivalsEnter(p: Pcb, ev: Event)
    requires p.state != TimeWait && Step(p, ev).pcb.state == TimeWait
    ensures ev.Arrival?
  {
  }

  /** Whatever releases a block closes it first. */
  lemma ReleaseCloses(p: Pcb, ev: Event)
    ensures Step(p, ev).release ==> Step(p, ev).pcb.state == Closed
  {
  }

  // ---------------------------------------------------------------- in TIME_WAIT

  ghost predicate SameDeadlines(q: seq<QueueEntry>, r: seq<QueueEntry>) {
    (q == [] <==> r == []) && forall now: nat :: Expired(q, now) == Expired(r, now)
  }

  /** The events that end a TIME_WAIT: a timer run past its timer or at the retransmission deadline of something
      queued, a reset or a SYN in the window, or the user. */
  predicate Ends(p: Pcb, ev: Event) {
    || (ev.Timer? && (ev.now > p.twTimer || Expired(p.queue, ev.now)))
    || (ev.Arrival? && Acceptable(p.rcv, ev.seg) && (ev.seg.flg.rst || ev.seg.flg.syn))
    || ev.Abort?
  }

  /** The events that restart it: another FIN. */
  predicate Restarts(p: Pcb, ev: Event) {
    ev.Arrival? && Passes(p, ev.seg) && ev.seg.flg.fin
  }

  lemma TimeWaitArrival(p: Pcb, seg: Segment, local: Endpoint, remote: Endpoint, now: nat)
    requires p.state == TimeWait
    ensures var r := OnSynchronized(p, seg, local, remote, now);
      if Acceptable(p.rcv, seg) && (seg.flg.rst || seg.flg.syn) then r.release
      else
        !r.release && r.pcb.state == TimeWait && r.pcb.queue == p.queue &&
        r.pcb.twTimer == if Passes(p, seg) && seg.flg.fin then now + TIMEWAIT else p.twTimer
  {
    var a := AckStage(p, seg, local, remote, now);
    assert a.pcb.state == TimeWait && a.pcb.queue == p.queue;
    assert TextStage(a.pcb, seg).pcb == a.pcb;
  }

  /** What one timer run does to a TIME_WAIT block, whatever it has queued. */
  lemma TimeWaitTick(p: Pcb, now: nat)
    requires p.state == TimeWait
    ensures var r := Tick(p, now);
      && (now > p.twTimer ==> r.release)
      && (now <= p.twTimer && Expired(p.queue, now) ==> !r.release && r.pcb.state == Closed)
      && (now <= p.twTimer && !Expired(p.queue, now) ==> !r.release && r.pcb.state == TimeWait)
      && (now <= p.twTimer && p.queue == [] ==> r == Quiet(p))
      && r.pcb.twTimer == p.twTimer && SameDeadlines(p.queue, r.pcb.queue)
  {
    var q := Tick(p, now).pcb.queue;
    TickShape(p, now);
    assert forall i :: 0 <= i < |q| ==> q[i].first == p.queue[i].first;
    forall later: nat
      ensures Expired(q, later) == Expired(p.queue, later)
    {
      if e :| e in q && later >= e.first + RETRANS_DEADLINE {
        var i :| 0 <= i < |q| && q[i] == e;
        assert p.queue[i] in p.queue;
      }
      if e :| e in p.queue && later >= e.first + RETRANS_DEADLINE {
        var i :| 0 <= i < |q| && p.queue[i] == e;
        assert q[i] in q;
      }
    }
    if p.queue == [] {
      assert seq(|p.queue|, i requires 0 <= i < |p.queue| => Fire(p.queue[i], now)) == p.queue;
    }
  }

  /** What every event does to a block in TIME_WAIT: it ends it, restarts its timer, or leaves both alone. */
  lemma TimeWaitStep(p: Pcb, ev: Event)
    requires p.state == TimeWait && !ev.UserConnect? && !ev.UserListen?
    ensures !Step(p, ev).release && Step(p, ev).pcb.state == TimeWait <==> !Ends(p, ev)
    ensures Ends(p, ev) && !Step(p, ev).release ==> Step(p, ev).pcb.state == Closed
    ensures !Ends(p, ev) ==> SameDeadlines(p.queue, Step(p, ev).pcb.queue)
    ensures !Ends(p, ev) ==> Step(p, ev).pcb.twTimer == if Restarts(p, ev) then ev.now + TIMEWAIT else p.twTimer
  {
    if ev.Timer? {
      TimeWaitTick(p, ev.now);
    } else if ev.Arrival? {
      TimeWaitArrival(p, ev.seg, ev.local, ev.remote, ev.now);
    }
  }

  /** The moment at which the TIME_WAIT timer was last set, up to position `j`, if step `i` set it first. */
  ghost function LastSet(t: seq<Conn>, evs: seq<Event>, i: nat, j: nat): nat
    requires |t| == |evs| + 1 && i < j < |t| && evs[i].Arrival?
  {
    if j == i + 1 then evs[i].now
    else if Restarts(t[j - 1].p, evs[j - 1]) then evs[j - 1].now
    else LastSet(t, evs, i, j - 1)
  }

  /** Nothing between the two positions ended it. */
  ghost predicate Unended(t: seq<Conn>, evs: seq<Event>, i: nat, j: nat)
    requires |t| == |evs| + 1 && i < j < |t|
  {
    j == i + 1 || (Unended(t, evs, i, j - 1) && !Ends(t[j - 1].p, evs[j - 1]))
  }

  /** The block is in TIME_WAIT exactly if nothing ended it, its timer set 30 seconds after `last` and its deadlines
      those of `queue`; otherwise it is gone or CLOSED. */
  ghost predicate InTimeWait(c: Conn, unended: bool, last: nat, queue: seq<QueueEntry>) {
    && (c.alive && c.p.state == TimeWait <==> unended)
    && (unended ==> c.p.twTimer == last + TIMEWAIT && SameDeadlines(queue, c.p.queue))
    && (c.alive && !unended ==> c.p.state == Closed && c.h.used)
  }

  lemma TimeWaitOn(c: Conn, ev: Event, d: Conn, unended: bool, last: nat, queue: seq<QueueEntry>)
    requires Leads(c, ev, d) && Inv(c.p, c.h) && InTimeWait(c, unended, last, queue)
    ensures InTimeWait(d, unended && !Ends(c.p, ev), if Restarts(c.p, ev) then ev.now else last, queue)
  {
    if unended {
      TimeWaitStep(c.p, ev);
      ReleaseCloses(c.p, ev);
    } else {
      DeadStays(c, ev);
    }
  }

  lemma TimeWaitAt(b: Birth, t: seq<Conn>, evs: seq<Event>, k: nat, unended: bool, last: nat, queue: seq<QueueEntry>)
    requires IsRun(b, t, evs) && k < |evs| && InTimeWait(t[k], unended, last, queue)
    ensures InTimeWait(t[k + 1], unended && !Ends(t[k].p, evs[k]),
                       if Restarts(t[k].p, evs[k]) then evs[k].now else last, queue)
  {
    RunKeeps(b, t, evs, k);
    TimeWaitOn(t[k], evs[k], t[k + 1], unended, last, queue);
  }

  /** TIME_WAIT over every run, however it was entered and whatever else happens: from the step that enters it on, the
      block is in TIME_WAIT exactly until something ends it, its timer stands at 30 seconds after the moment it was last
      set, and the deadlines of what it has queued are those it came with. With `TimeWaitStarts`: unless it came from
      CLOSING, or its sender wrapped, nothing is queued, so of all timer runs only one past the timer ends it. */
  lemma {:induction false} TimeWaitRuns(b: Birth, t: seq<Conn>, evs: seq<Event>, i: nat, j: nat)
    requires IsRun(b, t, evs) && i < j < |t| && t[i].p.state != TimeWait && t[i + 1].p.state == TimeWait
    ensures evs[i].Arrival?
    ensures InTimeWait(t[j], Unended(t, evs, i, j), LastSet(t, evs, i, j), t[i + 1].p.queue)
    decreases j
  {
    TimeWaitStarts(b, t, evs, i);
    if j > i + 1 {
      TimeWaitRuns(b, t, evs, i, j - 1);
      TimeWaitAt(b, t, evs, j - 1, Unended(t, evs, i, j - 1), LastSet(t, evs, i, j - 1), t[i + 1].p.queue);
    }
  }

  /** How a timer run finds a block in TIME_WAIT at any moment of a run: past the timer it releases it; before, at a
      deadline of something queued, it closes it and does not free it; otherwise it leaves it in TIME_WAIT, and
      untouched if nothing is queued. */
  lemma TimeWaitTimer(b: Birth, t: seq<Conn>, evs: seq<Event>, i: nat, j: nat)
    requires IsRun(b, t, evs) && i < j < |evs| && t[i].p.state != TimeWait && t[i + 1].p.state == TimeWait
    requires evs[i].Arrival? && Unended(t, evs, i, j) && evs[j].Timer?
    ensures var deadline, expired := LastSet(t, evs, i, j) + TIMEWAIT, Expired(t[i + 1].p.queue, evs[j].now);
      && (t[j + 1].alive <==> evs[j].now <= deadline)
      && (evs[j].now <= deadline ==> t[j + 1].p.state == if expired then Closed else TimeWait)
      && (evs[j].now <= deadline && t[i + 1].p.queue == [] ==> t[j + 1].p == t[j].p)
  {
    TimeWaitRuns(b, t, evs, i, j);
    assert Leads(t[j], evs[j], t[j + 1]);
    TimeWaitTick(t[j].p, evs[j].now);
  }

  /** A TIME_WAIT entered from CLOSING never lasts its 30 seconds: its FIN, sent before, reaches the retransmission
      deadline 18 seconds or more before the timer, so a timer run in between closes the block, and does not free it.
      */
  lemma ClosingCutsShort(b: Birth, t: seq<Conn>, evs: seq<Event>, i: nat, j: nat)
    requires IsRun(b, t, evs) && i < j < |evs| && t[i].p.state == Closing && t[i + 1].p.state == TimeWait
    requires Unended(t, evs, i, j) && evs[j].Timer? && evs[i].Arrival?
    requires forall e :: e in t[i].p.queue ==> e.first <= evs[i].now
    requires evs[i].now + RETRANS_DEADLINE <= evs[j].now <= LastSet(t, evs, i, j) + TIMEWAIT
    ensures t[j + 1].alive && t[j + 1].p.state == Closed
  {
    TimeWaitStarts(b, t, evs, i);
    TimeWaitTimer(b, t, evs, i, j);
    assert t[i].p.queue[0] in t[i].p.queue;
  }
}
