/** Two once-opened endpoints around a network that drops, duplicates and reorders segments.

    The network is the set of all segments either side ever handed down: any of them may be delivered at any later
    moment, any number of times, or never. */
module TcpStream {
  import opened Words
  import opened Inet
  import opened TcpPcb
  import opened TcpConn
  import opened TcpWire
  import opened TcpQueue
  import opened TcpRuns
  import E = TcpEffects

  datatype Net = Net(a: Conn, b: Conn, fromA: set<Segment>, fromB: set<Segment>)

  /** What one side does: an event at its block, or a listener on its host taking a SYN with a fresh block. */
  datatype Action =
    | Do(ev: Event)
    | Spawn(task: nat, parent: nat, seg: Segment, local: Endpoint, remote: Endpoint, isn: u32, now: nat)

  datatype Move = AtA(act: Action) | AtB(act: Action)

  function Segments(sent: set<Packet>): set<Segment> {
    set pk | pk in sent :: pk.seg
  }

  /** The block after the action; a released block is gone for good. */
  function Acted(c: Conn, act: Action): Conn {
    match act
    case Do(ev) => if c.alive then Next(c, ev) else c
    case Spawn(task, parent, seg, local, remote, isn, now) => Born(Child(task, parent, seg, local, remote, isn, now))
  }

  /** The segments the host sends meanwhile; without a block it refuses what arrives. */
  function Sent(c: Conn, act: Action): set<Segment> {
    match act
    case Do(ev) =>
      if c.alive then Segments(Step(c.p, ev).sent)
      else if ev.Arrival? then Segments(Refuse(ev.seg, ev.local, ev.remote))
      else {}
    case Spawn(_, _, _, _, _, _, _) => {SynAckOf(Acted(c, act).p).seg}
  }

  predicate Allowed(c: Conn, act: Action, incoming: set<Segment>) {
    match act
    case Do(ev) => (ev.Arrival? ==> ev.seg in incoming) && (if c.alive then Legal(c, ev) else ev.Arrival?)
    case Spawn(_, _, seg, _, _, _, _) =>
      c.alive && c.h == NO_HIST && seg in incoming && seg.flg.syn && !seg.flg.ack && !seg.flg.rst
  }

  predicate Permitted(n: Net, m: Move) {
    if m.AtA? then Allowed(n.a, m.act, n.fromB) else Allowed(n.b, m.act, n.fromA)
  }

  function NetStep(n: Net, m: Move): Net {
    if m.AtA? then n.(a := Acted(n.a, m.act), fromA := n.fromA + Sent(n.a, m.act))
    else n.(b := Acted(n.b, m.act), fromB := n.fromB + Sent(n.b, m.act))
  }

  ghost predicate IsNetRun(t: seq<Net>, ms: seq<Move>) {
    && |t| == |ms| + 1
    && (exists i: nat, j: nat :: t[0] == Net(Born(Allocated(i)), Born(Allocated(j)), {}, {}))
    && forall i {:trigger ms[i]} :: 0 <= i < |ms| ==> Permitted(t[i], ms[i]) && t[i + 1] == NetStep(t[i], ms[i])
  }

  // ---------------------------------------------------------------- the invariant

  ghost predicate SideInv(x: Conn, sent: set<Segment>) {
    && Inv(x.p, x.h)
    && ExactOnceBegun(x.p, x.h)
    && AcceptedPlain(x.p, x.h)
    && forall s :: s in sent ==> SegOk(s, x.p.iss, x.p.irs, x.h)
  }

  /** What `y` took from `x`: its SYN, and a prefix of its text. */
  predicate Heard(x: Conn, y: Conn) {
    && (y.h.synced ==> x.h.begun && y.p.irs == x.p.iss)
    && y.h.accepted <= x.h.written
  }

  /** `x` counts as acknowledged no more than `y` accepted, until `y` has processed a FIN. */
  predicate Credited(x: Conn, y: Conn) {
    x.h.begun && !y.h.finSeen ==>
      x.p.snd.una == x.p.iss || (y.h.synced && x.p.snd.una <= x.p.iss + 1 + |y.h.accepted|)
  }

  ghost predicate NetInv(n: Net) {
    && SideInv(n.a, n.fromA) && SideInv(n.b, n.fromB)
    && Heard(n.a, n.b) && Heard(n.b, n.a)
    && Credited(n.a, n.b) && Credited(n.b, n.a)
  }

  // ---------------------------------------------------------------- receiving

  /** Within one turn of the sequence space a place tells the byte. */
  lemma PlaceTells(start: u32, k: nat, n: nat)
    requires Place(start, k) == Place(start, n) && k < n + M32 && n < k + M32
    ensures k == n
  {
    WrapIsMod(start + 1 + k);
    WrapIsMod(start + 1 + n);
  }

  /** Nothing of the stream of `x` lies far beyond what `y` accepted, because what is in flight is bounded. */
  lemma NotFarBeyond(x: Conn, y: Conn)
    requires ExactOnceBegun(x.p, x.h) && x.h.begun && Credited(x, y) && !y.h.finSeen
    ensures |x.h.written| <= |y.h.accepted| + 65536
  {
  }

  lemma PrefixGrows(acc: seq<u8>, w: seq<u8>, data: seq<u8>)
    requires acc <= w && Piece(w, |acc|, data)
    ensures acc + data <= w
  {
    assert acc + data == w[..|acc| + |data|];
  }

  /** Text of `x` that sits where `y` expects text is what comes next in the stream: an old or an early segment never
      passes for it, although sequence numbers wrap. */
  lemma ExpectedIsNext(x: Conn, y: Conn, seg: Segment)
    requires ExactOnceBegun(x.p, x.h) && x.h.begun && Credited(x, y) && !y.h.finSeen
    requires y.h.accepted <= x.h.written && |y.h.accepted| < M32
    requires InStream(x.p.iss, x.h.written, seg.sn, seg.data) && seg.sn == Place(x.p.iss, |y.h.accepted|)
    ensures y.h.accepted + seg.data <= x.h.written
  {
    NotFarBeyond(x, y);
    var k: nat :| Place(x.p.iss, k) == seg.sn && Piece(x.h.written, k, seg.data);
    PlaceTells(x.p.iss, k, |y.h.accepted|);
    PrefixGrows(y.h.accepted, x.h.written, seg.data);
  }

  /** The text a delivery adds continues the stream of the sender. */
  lemma DeliveryExtendsPrefix(x: Conn, y: Conn, ev: Event)
    requires Inv(y.p, y.h) && AcceptedPlain(y.p, y.h) && ExactOnceBegun(x.p, x.h) && Heard(x, y) && Credited(x, y)
    requires ev.Arrival? && SegOk(ev.seg, x.p.iss, x.p.irs, x.h)
    ensures Next(y, ev).h.accepted <= x.h.written
  {
    AcceptedGrows(y, ev);
    if Next(y, ev).h.accepted != y.h.accepted {
      NextAcks(y.p, y.h);
      ExpectedIsNext(x, y, ev.seg);
    }
  }

  /** A block that becomes synchronized in a step took the SYN that arrived. */
  lemma SynSettlesIrs(y: Conn, ev: Event)
    requires Inv(y.p, y.h) && Legal(y, ev) && !y.h.synced && Next(y, ev).h.synced
    ensures ev.Arrival? && ev.seg.flg.syn && !ev.seg.flg.rst && Next(y, ev).p.irs == ev.seg.sn
  {
  }

  lemma EventHeard(x: Conn, sx: set<Segment>, y: Conn, ev: Event)
    requires SideInv(x, sx) && Inv(y.p, y.h) && AcceptedPlain(y.p, y.h) && Heard(x, y) && Credited(x, y) && Legal(y, ev)
    requires ev.Arrival? ==> ev.seg in sx
    ensures Heard(x, Next(y, ev))
  {
    StepExtends(y, ev);
    if ev.Arrival? {
      DeliveryExtendsPrefix(x, y, ev);
    } else {
      QuietKeepsAccepted(y, ev);
    }
    if !y.h.synced && Next(y, ev).h.synced {
      SynSettlesIrs(y, ev);
    }
  }

  // ---------------------------------------------------------------- acknowledging

  lemma SynchronizedUna(p: Pcb, seg: Segment, local: Endpoint, remote: Endpoint, now: nat)
    requires Synchronized(p.state)
    ensures var q := OnSynchronized(p, seg, local, remote, now).pcb;
      q.snd.una == p.snd.una || (q.snd.una == seg.ack && seg.flg.ack && !seg.flg.rst)
  {
    SynchronizedTrims(p, seg, local, remote, now);
  }

  /** SND.UNA is ISS, or stays, or becomes the acknowledgment that arrived. */
  lemma UnaMoves(x: Conn, ev: Event)
    requires Inv(x.p, x.h) && Legal(x, ev) && Next(x, ev).h.begun
    ensures var q := Next(x, ev).p;
      || (x.h.begun && q.iss == x.p.iss && q.snd.una == x.p.snd.una)
      || (!x.h.begun && q.snd.una == q.iss)
      || (x.h.begun && q.iss == x.p.iss && ev.Arrival? && q.snd.una == ev.seg.ack && ev.seg.flg.ack && !ev.seg.flg.rst)
  {
    StepExtends(x, ev);
    if ev.Arrival? && Synchronized(x.p.state) {
      SynchronizedUna(x.p, ev.seg, ev.local, ev.remote, ev.now);
    }
  }

  lemma EventCredited(x: Conn, y: Conn, sy: set<Segment>, ev: Event)
    requires Inv(x.p, x.h) && SideInv(y, sy) && Legal(x, ev) && (ev.Arrival? ==> ev.seg in sy)
    requires Heard(x, y) && Credited(x, y)
    ensures Credited(Next(x, ev), y)
  {
    if Next(x, ev).h.begun {
      UnaMoves(x, ev);
      if ev.Arrival? && ev.seg.flg.ack && !ev.seg.flg.rst && !y.h.finSeen {
        AckBounded(y.p.irs, |y.h.accepted|, ev.seg.ack);
      }
    }
  }

  lemma AckBounded(irs: u32, n: nat, ack: u32)
    requires AcksAtMost(irs, n, ack)
    ensures ack <= irs + 1 + n
  {
    var k: nat :| k <= n && Place(irs, k) == ack;
    WrapAtMost(irs + 1 + k);
  }

  // ---------------------------------------------------------------- every step keeps the invariant

  lemma EventSide(x: Conn, sx: set<Segment>, ev: Event)
    requires SideInv(x, sx) && Legal(x, ev)
    ensures SideInv(Next(x, ev), sx + Segments(Step(x.p, ev).sent))
  {
    StepKeeps(x, ev);
    StepExact(x, ev);
    StepPlain(x, ev);
    StepExtends(x, ev);
    StepSends(x, ev);
    var q, g := Next(x, ev).p, Next(x, ev).h;
    forall s | s in sx
      ensures SegOk(s, q.iss, q.irs, g)
    {
      SegOkExtends(s, x.p, x.h, q, g);
    }
  }

  /** One side acts: both sides stay sound, both streams stay prefixes, and no side is credited too much. */
  lemma ActKeeps(x: Conn, sx: set<Segment>, y: Conn, sy: set<Segment>, act: Action)
    requires SideInv(x, sx) && SideInv(y, sy) && Allowed(x, act, sy)
    requires Heard(x, y) && Heard(y, x) && Credited(x, y) && Credited(y, x)
    ensures SideInv(Acted(x, act), sx + Sent(x, act))
    ensures Heard(Acted(x, act), y) && Heard(y, Acted(x, act))
    ensures Credited(Acted(x, act), y) && Credited(y, Acted(x, act))
  {
    if act.Spawn? {
      SpawnKeeps(x, sx, y, sy, act);
    } else if x.alive {
      EventHeard(y, sy, x, act.ev);
      EventCredited(x, y, sy, act.ev);
      StepExtends(x, act.ev);
      EventSide(x, sx, act.ev);
      EventOthers(x, y, act.ev);
    }
  }

  lemma SpawnKeeps(x: Conn, sx: set<Segment>, y: Conn, sy: set<Segment>, act: Action)
    requires act.Spawn? && SideInv(x, sx) && SideInv(y, sy) && Allowed(x, act, sy)
    requires Heard(x, y) && Heard(y, x) && Credited(y, x)
    ensures SideInv(Acted(x, act), sx + Sent(x, act))
    ensures Heard(Acted(x, act), y) && Heard(y, Acted(x, act))
    ensures Credited(Acted(x, act), y) && Credited(y, Acted(x, act))
  {
    var z := Acted(x, act);
    BirthKeeps(Child(act.task, act.parent, act.seg, act.local, act.remote, act.isn, act.now));
    assert Extends(x.p, x.h, z.p, z.h);
    assert Place(z.p.irs, 0) == z.p.rcv.nxt && AcksAtMost(z.p.irs, 0, z.p.rcv.nxt);
    forall s | s in sx
      ensures SegOk(s, z.p.iss, z.p.irs, z.h)
    {
      SegOkExtends(s, x.p, x.h, z.p, z.h);
    }
  }

  /** What the silent side believes survives the other side's growth. */
  lemma EventOthers(x: Conn, y: Conn, ev: Event)
    requires Inv(x.p, x.h) && Inv(y.p, y.h) && Legal(x, ev) && Heard(x, y) && Credited(y, x)
    ensures Heard(Next(x, ev), y) && Credited(y, Next(x, ev))
  {
    StepExtends(x, ev);
  }

  lemma MoveKeeps(n: Net, m: Move)
    requires NetInv(n) && Permitted(n, m)
    ensures NetInv(NetStep(n, m))
  {
    if m.AtA? {
      ActKeeps(n.a, n.fromA, n.b, n.fromB, m.act);
    } else {
      ActKeeps(n.b, n.fromB, n.a, n.fromA, m.act);
    }
  }

  lemma MoveAlong(n: Net, m: Move, succ: Net)
    requires Permitted(n, m) && succ == NetStep(n, m) && NetInv(n)
    ensures NetInv(succ)
    ensures n.b.h.finSeen ==> succ.b.h.finSeen && succ.b.h.accepted == n.b.h.accepted
  {
    MoveKeeps(n, m);
    if n.b.h.finSeen {
      MoveFreezes(n, m);
    }
  }

  /** Nothing is accepted in a step after a FIN was processed. */
  lemma MoveFreezes(n: Net, m: Move)
    requires NetInv(n) && Permitted(n, m) && n.b.h.finSeen
    ensures NetStep(n, m).b.h.finSeen && NetStep(n, m).b.h.accepted == n.b.h.accepted
  {
    if m.AtB? && m.act.Do? && n.b.alive {
      StepExtends(n.b, m.act.ev);
    }
  }

  lemma {:induction false} NetRunKeeps(t: seq<Net>, ms: seq<Move>, i: nat)
    requires IsNetRun(t, ms) && i < |t|
    ensures NetInv(t[i])
    ensures i > 0 && t[i - 1].b.h.finSeen ==> t[i].b.h.finSeen && t[i].b.h.accepted == t[i - 1].b.h.accepted
  {
    if i > 0 {
      NetRunKeeps(t, ms, i - 1);
      MoveAlong(t[i - 1], ms[i - 1], t[i]);
    }
  }

  // ---------------------------------------------------------------- the theorems

  /** Stream safety: whatever the network does, and also after early FINs and through wrap-around, the bytes that
      `receive` returned followed by the bytes still buffered are a prefix of the bytes the peer's `send` wrote. */
  lemma StreamSafety(t: seq<Net>, ms: seq<Move>, i: nat)
    requires IsNetRun(t, ms) && i < |t|
    ensures t[i].b.h.read + t[i].b.p.buf <= t[i].a.h.written
    ensures t[i].a.h.read + t[i].a.p.buf <= t[i].b.h.written
  {
    NetRunKeeps(t, ms, i);
  }

  /** What `x` counts as acknowledged, `y` accepted: SND.UNA, which never wraps, does not pass the place of RCV.NXT. */
  predicate Behind(x: Conn, y: Conn) {
    && x.p.snd.una <= x.p.iss + 1 + |y.h.accepted| <= Top(x.p, x.h)
    && y.p.rcv.nxt == Wrap(x.p.iss + 1 + |y.h.accepted|)
  }

  /** Until a FIN was processed, SND.UNA never passes the peer's RCV.NXT. */
  lemma UnaBelowRcvNxt(x: Conn, y: Conn)
    requires Inv(x.p, x.h) && Inv(y.p, y.h) && ExactOnceBegun(x.p, x.h) && Heard(x, y) && Credited(x, y)
    requires x.h.begun && y.h.synced && !y.h.finSeen
    ensures Behind(x, y)
  {
    assert |y.h.accepted| <= |x.h.written|;
  }

  /** In every run, and in both directions. */
  lemma UnaNeverPasses(t: seq<Net>, ms: seq<Move>, i: nat)
    requires IsNetRun(t, ms) && i < |t|
    ensures t[i].a.h.begun && t[i].b.h.synced && !t[i].b.h.finSeen ==> Behind(t[i].a, t[i].b)
    ensures t[i].b.h.begun && t[i].a.h.synced && !t[i].a.h.finSeen ==> Behind(t[i].b, t[i].a)
  {
    NetRunKeeps(t, ms, i);
    var a, b := t[i].a, t[i].b;
    if a.h.begun && b.h.synced && !b.h.finSeen {
      UnaBelowRcvNxt(a, b);
    }
    if b.h.begun && a.h.synced && !a.h.finSeen {
      UnaBelowRcvNxt(b, a);
    }
  }

  /** A written byte has been accepted by the peer, or is queued for retransmission at its own sequence number; if `x`
      was released, in the queue it had then. */
  ghost predicate Accounted(x: Conn, y: Conn, k: nat)
    requires k < |x.h.written|
  {
    || (k < |y.h.accepted| && y.h.accepted[k] == x.h.written[k])
    || Queued(x.p, x.h, k)
  }

  lemma ByteAccounted(x: Conn, y: Conn, k: nat)
    requires Inv(x.p, x.h) && Inv(y.p, y.h) && ExactOnceBegun(x.p, x.h) && Heard(x, y) && Credited(x, y)
    requires x.h.begun && !y.h.finSeen && k < |x.h.written|
    ensures Accounted(x, y, k)
  {
    if |y.h.accepted| <= k {
      if y.h.synced {
        UnaBelowRcvNxt(x, y);
      }
      UnackedByteQueued(x.p, x.h, k);
    }
  }

  /** Conservation: until the receiver processes a FIN or the sender is released, no written byte is lost, in either
      direction. */
  lemma Conservation(t: seq<Net>, ms: seq<Move>, i: nat)
    requires IsNetRun(t, ms) && i < |t|
    ensures t[i].a.h.begun && !t[i].b.h.finSeen ==>
      forall k: nat :: k < |t[i].a.h.written| ==> Accounted(t[i].a, t[i].b, k)
    ensures t[i].b.h.begun && !t[i].a.h.finSeen ==>
      forall k: nat :: k < |t[i].b.h.written| ==> Accounted(t[i].b, t[i].a, k)
  {
    NetRunKeeps(t, ms, i);
    var a, b := t[i].a, t[i].b;
    if a.h.begun && !b.h.finSeen {
      forall k: nat | k < |a.h.written| ensures Accounted(a, b, k) { ByteAccounted(a, b, k); }
    }
    if b.h.begun && !a.h.finSeen {
      forall k: nat | k < |b.h.written| ensures Accounted(b, a, k) { ByteAccounted(b, a, k); }
    }
  }

  /** The FIN of `x` is next at `y` exactly when `y` has everything `x` wrote. */
  lemma FinPlace(x: Conn, y: Conn, seg: Segment)
    requires Inv(y.p, y.h) && AcceptedPlain(y.p, y.h) && ExactOnceBegun(x.p, x.h) && Heard(x, y) && Credited(x, y)
    requires SegOk(seg, x.p.iss, x.p.irs, x.h) && seg.flg.fin && y.h.begun && y.h.synced && !y.h.finSeen
    ensures seg.sn == y.p.rcv.nxt <==> y.h.accepted == x.h.written
  {
    NextAcks(y.p, y.h);
    NotFarBeyond(x, y);
    if seg.sn == y.p.rcv.nxt {
      PlaceTells(x.p.iss, |x.h.written|, |y.h.accepted|);
      assert y.h.accepted == x.h.written[..|y.h.accepted|];
    }
  }

  /** A FIN is processed only by a block that took a SYN before. */
  lemma FinNeedsSyn(y: Conn, ev: Event)
    requires Inv(y.p, y.h) && ev.Arrival?
    ensures !y.h.finSeen && Next(y, ev).h.finSeen ==> y.h.begun && y.h.synced
  {
  }

  /** A segment with a FIN carries no text, so the step that processes it accepts none. */
  lemma FinAddsNoText(y: Conn, ev: Event)
    requires Inv(y.p, y.h) && ev.Arrival? && ev.seg.data == []
    ensures Next(y, ev).h.accepted == y.h.accepted
  {
    AcceptedGrows(y, ev);
  }

  /** Nothing is accepted any more once a FIN was processed. */
  lemma {:induction false} FinFreezes(t: seq<Net>, ms: seq<Move>, i: nat, j: nat)
    requires IsNetRun(t, ms) && i <= j < |t| && t[i].b.h.finSeen
    ensures t[j].b.h.finSeen && t[j].b.h.accepted == t[i].b.h.accepted
    decreases j
  {
    if i < j {
      NetRunKeeps(t, ms, j);
      FinFreezes(t, ms, i, j - 1);
    }
  }

  /** End of stream: a FIN that the receiver processes completes the sender's stream exactly when it is the next thing
      expected. An earlier one ends the stream short, for the rest of the run. */
  lemma FinCompletesStreamIff(t: seq<Net>, ms: seq<Move>, i: nat, j: nat, ev: Event)
    requires IsNetRun(t, ms) && i < j < |t|
    requires ms[i] == AtB(Do(ev)) && t[i].b.alive && ev.Arrival? && ev.seg.flg.fin
    requires !t[i].b.h.finSeen && t[i + 1].b.h.finSeen
    ensures t[j].b.h.accepted == t[i].a.h.written <==> ev.seg.sn == t[i].b.p.rcv.nxt
  {
    NetRunKeeps(t, ms, i);
    FinNeedsSyn(t[i].b, ev);
    FinPlace(t[i].a, t[i].b, ev.seg);
    FinAddsNoText(t[i].b, ev);
    FinFreezes(t, ms, i + 1, j);
  }

  // ---------------------------------------------------------------- the send window

  /** The send window and the two numbers that say which segment it came from. */
  predicate TookWindow(p: Pcb, seg: Segment) {
    p.snd.wnd == seg.wnd && p.snd.wl1 == seg.sn && p.snd.wl2 == seg.ack
  }

  predicate SameWindow(p: Pcb, q: Pcb) {
    q.snd.wnd == p.snd.wnd && q.snd.wl1 == p.snd.wl1 && q.snd.wl2 == p.snd.wl2
  }

  predicate OlderWindow(p: Pcb, seg: Segment) {
    p.snd.wl1 < seg.sn || (p.snd.wl1 == seg.sn && p.snd.wl2 <= seg.ack)
  }

  lemma AckWindow(p: Pcb, seg: Segment, local: Endpoint, remote: Endpoint, now: nat)
    ensures var q := AckStage(p, seg, local, remote, now).pcb;
      SameWindow(p, q) || (TookWindow(q, seg) && OlderWindow(p, seg))
  {
  }

  lemma SynchronizedWindow(p: Pcb, seg: Segment, local: Endpoint, remote: Endpoint, now: nat)
    ensures var q := OnSynchronized(p, seg, local, remote, now).pcb;
      SameWindow(p, q) || (TookWindow(q, seg) && OlderWindow(p, seg))
  {
    AckWindow(p, seg, local, remote, now);
    var a := AckStage(p, seg, local, remote, now);
    var t := TextStage(a.pcb, seg).pcb;
    assert t.snd == a.pcb.snd;
    assert FinStage(t, seg, now).pcb.snd == t.snd;
  }

  /** Only an arrival changes the send window, to its own, and once the connection is synchronized only if it is not
      older than the segment the window came from. */
  lemma StepWindow(p: Pcb, ev: Event)
    ensures var q := Step(p, ev).pcb;
      || SameWindow(p, q)
      || (ev.Arrival? && TookWindow(q, ev.seg) && (Synchronized(p.state) ==> OlderWindow(p, ev.seg)))
  {
    if ev.Arrival? && Synchronized(p.state) {
      SynchronizedWindow(p, ev.seg, ev.local, ev.remote, ev.now);
    }
  }

  /** No window was taken yet, or it came on a segment the peer did send. */
  ghost predicate Advertised(x: Conn, incoming: set<Segment>) {
    x.p.snd.wnd == x.p.snd.wl1 == x.p.snd.wl2 == 0 || exists seg :: seg in incoming && TookWindow(x.p, seg)
  }

  lemma ActAdvertised(x: Conn, act: Action, incoming: set<Segment>)
    requires Advertised(x, incoming) && Allowed(x, act, incoming)
    ensures Advertised(Acted(x, act), incoming)
  {
    if act.Do? && x.alive {
      StepWindow(x.p, act.ev);
    }
  }

  lemma MoreAdvertised(x: Conn, before: set<Segment>, after: set<Segment>)
    requires Advertised(x, before) && before <= after
    ensures Advertised(x, after)
  {
  }

  lemma MoveAdvertised(n: Net, m: Move, succ: Net)
    requires Permitted(n, m) && succ == NetStep(n, m) && Advertised(n.a, n.fromB) && Advertised(n.b, n.fromA)
    ensures Advertised(succ.a, succ.fromB) && Advertised(succ.b, succ.fromA)
  {
    if m.AtA? {
      ActAdvertised(n.a, m.act, n.fromB);
      MoreAdvertised(n.b, n.fromA, succ.fromA);
    } else {
      ActAdvertised(n.b, m.act, n.fromA);
      MoreAdvertised(n.a, n.fromB, succ.fromB);
    }
  }

  /** The window a sender respects was advertised by its peer: in every run of any length it came, with the two numbers
      that date it, on a segment that the peer sent. */
  lemma {:induction false} WindowWasAdvertised(t: seq<Net>, ms: seq<Move>, i: nat)
    requires IsNetRun(t, ms) && i < |t|
    ensures Advertised(t[i].a, t[i].fromB) && Advertised(t[i].b, t[i].fromA)
  {
    if i > 0 {
      WindowWasAdvertised(t, ms, i - 1);
      MoveAdvertised(t[i - 1], ms[i - 1], t[i]);
    }
  }

  // ---------------------------------------------------------------- acknowledgments

  /** `seg` acknowledges all the text of a stream of `n` bytes whose SYN is at `irs`. */
  predicate AcksAll(seg: Segment, irs: u32, n: nat) {
    seg.flg.ack && !seg.flg.rst && seg.ack == Place(irs, n)
  }

  /** If `y` accepted text, it sent an ACK of the place after its last byte. */
  ghost predicate Reported(y: Conn, sent: set<Segment>) {
    y.h.accepted != [] ==> y.h.synced && exists seg :: seg in sent && AcksAll(seg, y.p.irs, |y.h.accepted|)
  }

  /** The buffer gains what is accepted. */
  lemma GainIsAccepted(y: Conn, ev: Event)
    requires ev.Arrival? && Next(y, ev).h.accepted != y.h.accepted
    ensures E.Gain(y.p, Next(y, ev).p) > 0
    ensures |Next(y, ev).h.accepted| == |y.h.accepted| + E.Gain(y.p, Next(y, ev).p)
  {
    var p, q := y.p, Step(y.p, ev).pcb;
    assert |p.buf| <= |q.buf| && Next(y, ev).h.accepted == y.h.accepted + q.buf[|p.buf|..];
  }

  lemma EventReported(y: Conn, sent: set<Segment>, ev: Event)
    requires Inv(y.p, y.h) && Legal(y, ev) && Reported(y, sent)
    ensures Reported(Next(y, ev), sent + Segments(Step(y.p, ev).sent))
  {
    StepExtends(y, ev);
    if !ev.Arrival? {
      QuietKeepsAccepted(y, ev);
    } else if Next(y, ev).h.accepted != y.h.accepted {
      TextReported(y, sent, ev);
    }
  }

  /** An ACK of what comes after `n` bytes and `gain` more. */
  lemma AckFound(pks: set<Packet>, q: Pcb, nxt: u32, gain: u32, irs: u32, n: nat)
    requires E.Acked(pks, q, Wrap(nxt + gain)) && nxt == Wrap(irs + 1 + n)
    ensures exists seg :: seg in Segments(pks) && AcksAll(seg, irs, n + gain)
  {
    WrapStep(irs + 1 + n, gain);
    WrapStep(nxt, gain);
    assert Place(irs, n + gain) == Wrap(irs + 1 + n + gain);
    var pk :| pk in pks && E.Acknowledges(pk, q, Wrap(nxt + gain));
    assert pk.seg in Segments(pks) && AcksAll(pk.seg, irs, n + gain);
  }

  lemma TextReported(y: Conn, sent: set<Segment>, ev: Event)
    requires Inv(y.p, y.h) && Legal(y, ev) && ev.Arrival? && Next(y, ev).h.accepted != y.h.accepted
    requires Extends(y.p, y.h, Next(y, ev).p, Next(y, ev).h)
    ensures Reported(Next(y, ev), sent + Segments(Step(y.p, ev).sent))
  {
    AcceptedGrows(y, ev);
    GainIsAccepted(y, ev);
    E.TextIsAcked(y.p, ev);
    var r := Step(y.p, ev);
    AckFound(r.sent, r.pcb, y.p.rcv.nxt, E.Gain(y.p, r.pcb), y.p.irs, |y.h.accepted|);
  }

  lemma MoveReported(n: Net, m: Move, succ: Net)
    requires Permitted(n, m) && succ == NetStep(n, m) && NetInv(n) && Reported(n.a, n.fromA) && Reported(n.b, n.fromB)
    ensures Reported(succ.a, succ.fromA) && Reported(succ.b, succ.fromB)
  {
    var x, sent := if m.AtA? then n.a else n.b, if m.AtA? then n.fromA else n.fromB;
    if m.act.Do? && x.alive {
      EventReported(x, sent, m.act.ev);
    }
  }

  /** Acknowledgment: in every run, all the text that a side has accepted so far was acknowledged on some segment that
      it sent; a FIN does not change that. */
  lemma {:induction false} AcceptedIsReported(t: seq<Net>, ms: seq<Move>, i: nat)
    requires IsNetRun(t, ms) && i < |t|
    ensures Reported(t[i].a, t[i].fromA) && Reported(t[i].b, t[i].fromB)
  {
    if i > 0 {
      AcceptedIsReported(t, ms, i - 1);
      NetRunKeeps(t, ms, i - 1);
      MoveReported(t[i - 1], ms[i - 1], t[i]);
    }
  }
}
