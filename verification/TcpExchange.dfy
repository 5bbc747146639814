/** What two blocks achieve when the network passes their segments on: they open, move text, repair a loss, close and
    refuse, each exactly under the conditions that the plain comparisons of src/tcp.rs impose. */
module TcpExchange {
  import opened Wrappers
  import opened Words
  import opened Inet
  import opened TcpPcb
  import C = TcpConn

  /** A packet reaches the block it is addressed to. */
  function Gets(p: Pcb, pk: Packet, isn: u32, now: nat): Reaction {
    Step(p, Arrival(pk.seg, pk.dst, pk.src, isn, now))
  }

  // ---------------------------------------------------------------- opening

  /** A listener gets a packet, itself or, in socket mode, through a child in a fresh block. */
  function Answers(b: Pcb, pk: Packet, isn: u32, now: nat): (Pcb, set<Packet>) {
    if Spawns(b, pk.seg) then
      var child := C.Born(C.Child(0, 0, pk.seg, pk.dst, pk.src, isn, now)).p;
      (child, {SynAckOf(child)})
    else
      (Gets(b, pk, isn, now).pcb, Gets(b, pk, isn, now).sent)
  }

  /** A client and a listener, their endpoints and initial sequence numbers, and a clock. */
  datatype Opening = Opening(a: Pcb, b: Pcb, here: Endpoint, there: Endpoint, issA: u32, issB: u32, now: nat)
  {
    /** The client is fresh, and the listener can take a connection. */
    predicate Ready() {
      a.queue == [] && b.queue == [] && b.state == Listen && (b.mode == Rfc || |b.backlog| < b.backlogMax)
    }

    function Connects(): Reaction {
      Step(a, UserConnect(here, there, issA, true, now))
    }

    /** The three packets of the handshake follow from one another. */
    predicate Follow(syn: Packet, synAck: Packet, ack: Packet) {
      && syn in Connects().sent
      && synAck in Answers(b, syn, issB, now).1
      && ack in Gets(Connects().pcb, synAck, 0, now).sent
    }

    function ClientAfter(synAck: Packet): Pcb {
      Gets(Connects().pcb, synAck, 0, now).pcb
    }

    function ServerAfter(syn: Packet, ack: Packet): Pcb {
      Gets(Answers(b, syn, issB, now).0, ack, 0, now).pcb
    }

    predicate Opens(syn: Packet, synAck: Packet, ack: Packet) {
      && Follow(syn, synAck, ack)
      && ClientAfter(synAck).state == Established && ServerAfter(syn, ack).state == Established
    }
  }

  /** Each block expects what the other one sends next, all was acknowledged, and nothing is queued. */
  predicate Agree(x: Pcb, y: Pcb) {
    && x.snd.nxt == x.snd.una == y.rcv.nxt && y.snd.nxt == y.snd.una == x.rcv.nxt
    && x.local == y.remote && x.remote == y.local
    && x.queue == [] && y.queue == []
  }

  lemma CleanupOne(q: seq<QueueEntry>, una: u32)
    requires |q| == 1 && q[0].End() <= una
    ensures Cleanup(q, una) == []
  {
    assert q[1..] == [];
  }

  /** The client's side: SYN out, SYN and ACK in. */
  lemma ClientOpens(o: Opening, synAck: Packet)
    requires o.a.queue == [] && o.issA < M32 - 1
    requires synAck.seg.flg == SYN_ACK && synAck.seg.ack == o.issA + 1
    ensures var x := o.ClientAfter(synAck);
      && x.state == Established && x.queue == [] && x.snd.nxt == x.snd.una == o.issA + 1
      && x.rcv.nxt == Add32(synAck.seg.sn, 1) && x.irs == synAck.seg.sn && x.iss == o.issA
      && x.local == o.here && x.remote == o.there && x.snd.wnd == synAck.seg.wnd
    ensures Gets(o.Connects().pcb, synAck, 0, o.now).sent == {Transmit(o.ClientAfter(synAck), ACK, [])}
  {
    CleanupOne(o.Connects().pcb.queue, synAck.seg.ack);
  }

  /** The server's side, once a block has taken the SYN: its ACK opens the connection exactly if it falls into the
      window and the own number has not wrapped. */
  lemma ServerOpens(b: Pcb, ack: Packet, now: nat)
    requires b.state == SynReceived && |b.queue| == 1 && b.queue[0].sn == b.snd.una && b.queue[0].flg == SYN_ACK
    requires b.queue[0].data == [] && b.snd.nxt == Add32(b.snd.una, 1) && b.rcv.wnd > 0
    requires ack.seg.flg == ACK && ack.seg.data == [] && ack.seg.sn == b.rcv.nxt && ack.seg.ack == b.snd.nxt
    ensures var y := Gets(b, ack, 0, now).pcb;
      && (y.state == Established <==> b.rcv.nxt + b.rcv.wnd < M32 && b.snd.una < M32 - 1)
      && (y.state == Established ==>
            && y.queue == [] && y.snd.una == y.snd.nxt == b.snd.nxt && y.rcv == b.rcv
            && y.iss == b.iss && y.irs == b.irs && y.local == b.local && y.remote == b.remote
            && (b.snd.wl1 < ack.seg.sn ==> y.snd.wnd == ack.seg.wnd))
  {
    if b.snd.una < M32 - 1 {
      CleanupOne(b.queue, ack.seg.ack);
    }
  }

  function SynOf(o: Opening): Packet {
    Packet(o.here, o.there, Segment(o.issA, o.a.rcv.nxt, SYN, RECV_BUF_SIZE, []))
  }

  /** The block that takes the SYN, and its answer. */
  lemma ServerTakesSyn(o: Opening)
    requires o.Ready()
    ensures o.Connects().sent == {SynOf(o)}
    ensures var b := Answers(o.b, SynOf(o), o.issB, o.now);
      && b.1 == {SynAckOf(b.0)} && b.0.state == SynReceived && b.0.local == o.there && b.0.remote == o.here
      && b.0.rcv == RcvVars(Add32(o.issA, 1), 65535) && b.0.irs == o.issA && b.0.iss == b.0.snd.una == o.issB
      && b.0.snd.nxt == Add32(o.issB, 1) && (o.b.snd.wl1 == 0 ==> b.0.snd.wl1 == 0)
      && b.0.queue == [QueueEntry(o.now, o.now, DEFAULT_RTO, o.issB, SYN_ACK, [])]
  {
  }

  /** Whatever follows from the SYN is this. */
  lemma HandshakeIs(o: Opening)
    requires o.Ready() && o.issA < M32 - 1
    ensures var b := Answers(o.b, SynOf(o), o.issB, o.now).0;
      var x := o.ClientAfter(SynAckOf(b));
      forall syn, synAck, ack :: o.Follow(syn, synAck, ack) <==>
        syn == SynOf(o) && synAck == SynAckOf(b) && ack == Transmit(x, ACK, [])
  {
    ServerTakesSyn(o);
    ClientOpens(o, SynAckOf(Answers(o.b, SynOf(o), o.issB, o.now).0));
  }

  /** The last number cannot be acknowledged by a SYN of its own. */
  lemma LastNumberFails(o: Opening, syn: Packet, synAck: Packet, ack: Packet)
    requires o.Ready() && o.issA == M32 - 1 && o.Follow(syn, synAck, ack)
    ensures o.ClientAfter(synAck).state != Established
  {
    ServerTakesSyn(o);
  }

  lemma HandshakeOutcome(o: Opening)
    requires o.Ready() && o.issA < M32 - 1
    ensures var b := Answers(o.b, SynOf(o), o.issB, o.now).0;
      var x := o.ClientAfter(SynAckOf(b));
      var y := o.ServerAfter(SynOf(o), Transmit(x, ACK, []));
      && x.state == Established
      && (y.state == Established <==> o.issA < M32 - 65536 && o.issB < M32 - 1)
      && (y.state == Established ==> Agree(x, y) && x.irs == o.issB && y.irs == o.issA)
      && x.snd.wnd == 65535 && (y.state == Established && o.b.snd.wl1 == 0 ==> y.snd.wnd == 65535)
  {
    ServerTakesSyn(o);
    var b := Answers(o.b, SynOf(o), o.issB, o.now).0;
    ClientOpens(o, SynAckOf(b));
    ServerOpens(b, Transmit(o.ClientAfter(SynAckOf(b)), ACK, []), o.now);
  }

  /** The three-way handshake: its packets open both blocks exactly if the client's initial number keeps its window
      below 2^32 and the server's own number is not the last one. Then both blocks agree, and each knows the other's
      initial sequence number and window. */
  lemma HandshakeOpensIff(o: Opening)
    requires o.Ready()
    ensures (exists syn, synAck, ack :: o.Opens(syn, synAck, ack)) <==> o.issA < M32 - 65536 && o.issB < M32 - 1
    ensures forall syn, synAck, ack :: o.Opens(syn, synAck, ack) ==>
      && Agree(o.ClientAfter(synAck), o.ServerAfter(syn, ack))
      && o.ClientAfter(synAck).irs == o.issB && o.ServerAfter(syn, ack).irs == o.issA
      && o.ClientAfter(synAck).snd.wnd == 65535 && (o.b.snd.wl1 == 0 ==> o.ServerAfter(syn, ack).snd.wnd == 65535)
  {
    if o.issA < M32 - 1 {
      HandshakeIs(o);
      HandshakeOutcome(o);
      var b := Answers(o.b, SynOf(o), o.issB, o.now).0;
      assert o.Follow(SynOf(o), SynAckOf(b), Transmit(o.ClientAfter(SynAckOf(b)), ACK, []));
      assert o.Opens(SynOf(o), SynAckOf(b), Transmit(o.ClientAfter(SynAckOf(b)), ACK, []))
        <==> o.issA < M32 - 65536 && o.issB < M32 - 1;
    } else {
      forall syn, synAck, ack | o.Follow(syn, synAck, ack)
        ensures !o.Opens(syn, synAck, ack)
      {
        LastNumberFails(o, syn, synAck, ack);
      }
    }
  }

  // ---------------------------------------------------------------- text

  /** All that `a` sent is acknowledged and `b` expects what comes next; `b` itself may have text under way. */
  predicate Facing(a: Pcb, b: Pcb) {
    && a.snd.nxt == a.snd.una == b.rcv.nxt && a.queue == []
    && b.snd.nxt == a.rcv.nxt && a.local == b.remote && a.remote == b.local
  }

  /** `b` has an open window that lies below 2^32. */
  predicate Open(b: Pcb) {
    b.rcv.wnd > 0 && b.rcv.nxt + b.rcv.wnd < M32
  }

  /** A pure ACK can pass the first check of `a`. */
  predicate Hears(a: Pcb) {
    a.rcv.wnd == 0 || a.rcv.nxt + a.rcv.wnd < M32
  }

  predicate IsText(pk: Packet, a: Pcb, text: seq<u8>) {
    && pk.src == a.local && pk.dst == a.remote && pk.seg.flg == ACK_PSH
    && pk.seg.data == text && pk.seg.ack == a.rcv.nxt
  }

  predicate IsAck(pk: Packet, b: Pcb, number: nat) {
    && pk.src == b.local && pk.dst == b.remote && pk.seg.flg == ACK && pk.seg.data == []
    && pk.seg.sn == b.snd.nxt && pk.seg.ack == number
  }

  /** Text that is expected and fits is taken exactly by an open window, and then acknowledged. */
  lemma TextTakenIff(b: Pcb, pk: Packet, a: Pcb, text: seq<u8>, now: nat)
    requires IsText(pk, a, text) && text != [] && |text| <= b.rcv.wnd && TakesText(b.state)
    requires pk.seg.sn == b.rcv.nxt && pk.seg.ack == b.snd.nxt
    ensures var r := Gets(b, pk, 0, now);
      && (r.pcb.buf == b.buf + text <==> Open(b))
      && (Open(b) ==>
            && r.pcb.rcv == RcvVars(b.rcv.nxt + |text|, b.rcv.wnd - |text|)
            && r.sent != {} && forall ack :: ack in r.sent ==> IsAck(ack, b, b.rcv.nxt + |text|))
  {
    assert pk.seg.Len() == |text|;
    var r := Gets(b, pk, 0, now);
    assert |b.buf + text| > |b.buf|;
    if Open(b) {
      var m := AckStage(b, pk.seg, pk.dst, pk.src, now);
      assert m.pcb.buf == b.buf && m.pcb.rcv == b.rcv && TakesText(m.pcb.state) && m.sent == {};
      assert r.sent == {Transmit(r.pcb, ACK, [])};
    }
  }

  /** The ACK of the one entry that is queued clears the queue exactly if the sender can hear it. */
  lemma AckTakenIff(a: Pcb, pk: Packet, now: nat)
    requires a.state in {Established, CloseWait} && |a.queue| == 1
    requires a.queue[0].sn == a.snd.una < a.snd.nxt == a.queue[0].End()
    requires pk.seg.flg == ACK && pk.seg.data == [] && pk.seg.sn == a.rcv.nxt && pk.seg.ack == a.snd.nxt
    ensures var q := Gets(a, pk, 0, now).pcb;
      q.queue == [] <==> Hears(a)
    ensures var q := Gets(a, pk, 0, now).pcb;
      q.snd.nxt == a.snd.nxt && (Hears(a) ==> q.snd.una == q.snd.nxt && q.state == a.state)
  {
    CleanupOne(a.queue, pk.seg.ack);
  }

  /** What one pass of `send` has to do: something to write, a segment size and a window, and room for it at the peer.
      */
  predicate Sendable(a: Pcb, b: Pcb, rest: seq<u8>) {
    && a.state in {Established, CloseWait} && TakesText(b.state) && Facing(a, b)
    && 0 < Min(a.mss, Min(|rest|, a.snd.wnd)) <= b.rcv.wnd
  }

  /** From the block `a`, which has sent the text, the text reaches `b` and its ACK comes back: `b` has buffered it
      behind what it had, and `a` has nothing left to send again. */
  predicate Carried(a: Pcb, b: Pcb, text: seq<u8>, now: nat, pk: Packet, ack: Packet) {
    && ack in Gets(b, pk, 0, now).sent
    && Gets(b, pk, 0, now).pcb.buf == b.buf + text
    && Gets(a, ack, 0, now).pcb.queue == []
  }

  lemma CarriedIff(a: Pcb, b: Pcb, text: seq<u8>, now: nat, pk: Packet)
    requires a.state in {Established, CloseWait} && TakesText(b.state) && text != [] && |text| <= b.rcv.wnd
    requires |a.queue| == 1 && a.queue[0].sn == a.snd.una == b.rcv.nxt && a.queue[0].data == text
    requires a.queue[0].flg == ACK_PSH && a.snd.nxt == Add32(b.rcv.nxt, |text|) && a.rcv.nxt == b.snd.nxt
    requires IsText(pk, a, text) && pk.seg.sn == b.rcv.nxt
    ensures (exists ack :: Carried(a, b, text, now, pk, ack)) <==> Open(b) && Hears(a)
  {
    TextTakenIff(b, pk, a, text, now);
    if Open(b) {
      forall ack | ack in Gets(b, pk, 0, now).sent
        ensures Carried(a, b, text, now, pk, ack) <==> Hears(a)
      {
        AckTakenIff(a, ack, now);
      }
      var ack :| ack in Gets(b, pk, 0, now).sent;
    }
  }

  /** The block after a pass of `send` on a quiet connection, and what it sent. */
  lemma SendQueues(a: Pcb, rest: seq<u8>, now: nat)
    requires a.state in {Established, CloseWait} && a.queue == [] && a.snd.una == a.snd.nxt
    requires 0 < Min(a.mss, Min(|rest|, a.snd.wnd))
    ensures var n, r := Min(a.mss, Min(|rest|, a.snd.wnd)), Step(a, UserSend(rest, now));
      && r.pcb == a.(snd := a.snd.(nxt := Add32(a.snd.nxt, n)),
                     queue := [QueueEntry(now, now, 200_000_000, a.snd.nxt, ACK_PSH, rest[..n])])
      && r.sent != {} && forall pk :: pk in r.sent ==> IsText(pk, a, rest[..n]) && pk.seg.sn == a.snd.nxt
  {
    assert Transmit(a, ACK_PSH, Chunk(a, rest)) in Step(a, UserSend(rest, now)).sent;
  }

  /** Text that `send` puts on a network that passes it on is buffered by the peer and acknowledged, exactly if both
      windows lie below 2^32. */
  lemma TextArrivesIff(a: Pcb, b: Pcb, rest: seq<u8>, now: nat)
    requires Sendable(a, b, rest)
    ensures var n, r := Min(a.mss, Min(|rest|, a.snd.wnd)), Step(a, UserSend(rest, now));
      (exists pk, ack :: pk in r.sent && Carried(r.pcb, b, rest[..n], now, pk, ack)) <==> Open(b) && Hears(a)
  {
    var n, r := Min(a.mss, Min(|rest|, a.snd.wnd)), Step(a, UserSend(rest, now));
    SendQueues(a, rest, now);
    forall pk | pk in r.sent
      ensures (exists ack :: Carried(r.pcb, b, rest[..n], now, pk, ack)) <==> Open(b) && Hears(a)
    {
      CarriedIff(r.pcb, b, rest[..n], now, pk);
    }
    var pk :| pk in r.sent;
  }

  /** If the network loses the text, any timer run from 200 milliseconds to 12 seconds later sends it again, and it
      arrives all the same. */
  lemma LossIsRepairedIff(a: Pcb, b: Pcb, rest: seq<u8>, now: nat, later: nat)
    requires Sendable(a, b, rest) && now + 200_000_000 <= later < now + 12_000_000_000
    ensures var n, r := Min(a.mss, Min(|rest|, a.snd.wnd)), Step(Step(a, UserSend(rest, now)).pcb, Timer(later));
      (exists pk, ack :: pk in r.sent && Carried(r.pcb, b, rest[..n], later, pk, ack)) <==> Open(b) && Hears(a)
  {
    var n, a1 := Min(a.mss, Min(|rest|, a.snd.wnd)), Step(a, UserSend(rest, now)).pcb;
    SendQueues(a, rest, now);
    TimerResends(a1, later);
    var r := Step(a1, Timer(later));
    forall pk | pk in r.sent
      ensures (exists ack :: Carried(r.pcb, b, rest[..n], later, pk, ack)) <==> Open(b) && Hears(a)
    {
      CarriedIff(r.pcb, b, rest[..n], later, pk);
    }
    var pk :| pk in r.sent;
  }

  /** A timer run on a block with one overdue entry. */
  lemma TimerResends(a: Pcb, later: nat)
    requires a.state != TimeWait && |a.queue| == 1 && a.queue[0].last + a.queue[0].rto <= later
    requires later < a.queue[0].first + 12_000_000_000
    ensures var e, r := a.queue[0], Step(a, Timer(later));
      && r.pcb == a.(queue := [e.(last := later, rto := 2 * e.rto)])
      && r.sent == {Packet(a.local, a.remote, Segment(e.sn, a.rcv.nxt, e.flg, a.rcv.wnd, e.data))}
  {
    assert a.queue[0] in a.queue;
    assert forall e :: e in a.queue ==> e == a.queue[0];
  }

  // ---------------------------------------------------------------- closing

  predicate IsFin(pk: Packet, x: Pcb) {
    && pk.src == x.local && pk.dst == x.remote && pk.seg.flg == ACK_FIN && pk.seg.data == []
    && pk.seg.sn == x.snd.nxt && pk.seg.ack == x.rcv.nxt
  }

  /** `close` in ESTABLISHED or CLOSE_WAIT sends a FIN at SND.NXT, which moves past it. */
  lemma CloseSendsFin(x: Pcb, now: nat)
    requires x.state in {Established, CloseWait}
    ensures var r := Step(x, UserClose(now));
      && r.pcb == x.(state := if x.state == Established then FinWait1 else LastAck,
                     snd := x.snd.(nxt := Add32(x.snd.nxt, 1)), queue := r.pcb.queue)
      && r.sent != {} && forall pk :: pk in r.sent ==> IsFin(pk, x)
  {
    assert Transmit(x, ACK_FIN, []) in Step(x, UserClose(now)).sent;
  }

  /** The FIN that comes next is taken exactly by an open window, and then acknowledged. */
  lemma FinTakenIff(y: Pcb, pk: Packet, now: nat)
    requires y.state in {Established, FinWait2} && pk.seg.flg == ACK_FIN && pk.seg.data == []
    requires pk.seg.sn == y.rcv.nxt && pk.seg.ack == y.snd.nxt
    ensures var r, next := Gets(y, pk, 0, now), if y.state == Established then CloseWait else TimeWait;
      && (r.pcb.state == next <==> Open(y))
      && (Open(y) ==>
            && r.pcb.rcv == RcvVars(y.rcv.nxt + 1, y.rcv.wnd) && r.pcb.snd.nxt == y.snd.nxt
            && r.pcb.local == y.local && r.pcb.remote == y.remote
            && (next == TimeWait ==> r.pcb.twTimer == now + 30_000_000_000)
            && r.sent != {} && forall ack :: ack in r.sent ==> IsAck(ack, y, y.rcv.nxt + 1))
  {
    assert pk.seg.Len() == 1;
    var r := Gets(y, pk, 0, now);
    if Open(y) {
      var m := AckStage(y, pk.seg, pk.dst, pk.src, now);
      assert m.pcb.rcv == y.rcv && m.pcb.state == y.state && m.sent == {};
      assert r.sent == {Transmit(r.pcb, ACK, [])};
    }
  }

  /** The ACK of the own FIN is heard, or not. */
  lemma FinAckTakenIff(x: Pcb, pk: Packet, now: nat)
    requires x.state in {FinWait1, LastAck} && pk.seg.flg == ACK && pk.seg.data == []
    requires pk.seg.sn == x.rcv.nxt && pk.seg.ack == x.snd.nxt
    ensures var r := Gets(x, pk, 0, now);
      && (x.state == FinWait1 ==> (r.pcb.state == FinWait2 <==> Hears(x)))
      && (x.state == LastAck ==> (r.release <==> Hears(x)))
      && (Hears(x) ==> r.pcb.rcv == x.rcv && r.pcb.snd.nxt == x.snd.nxt)
      && (Hears(x) ==> r.pcb.local == x.local && r.pcb.remote == x.remote)
  {
  }

  /** The first half of a close: the FIN of `a` and its ACK. */
  predicate HalfCloses(a: Pcb, b: Pcb, now: nat, fin: Packet, ack: Packet) {
    var a1, b1 := Step(a, UserClose(now)), Gets(b, fin, 0, now);
    && fin in a1.sent && ack in b1.sent
    && b1.pcb.state == CloseWait && Gets(a1.pcb, ack, 0, now).pcb.state == FinWait2
  }

  lemma HalfClosesIff(a: Pcb, b: Pcb, now: nat)
    requires a.state == b.state == Established && Agree(a, b)
    ensures (exists fin, ack :: HalfCloses(a, b, now, fin, ack)) <==> Open(b) && Hears(a)
  {
    CloseSendsFin(a, now);
    var a1 := Step(a, UserClose(now));
    forall fin | fin in a1.sent
      ensures (exists ack :: HalfCloses(a, b, now, fin, ack)) <==> Open(b) && Hears(a)
    {
      FinTakenIff(b, fin, now);
      if Open(b) {
        forall ack | ack in Gets(b, fin, 0, now).sent
          ensures HalfCloses(a, b, now, fin, ack) <==> Hears(a)
        {
          FinAckTakenIff(a1.pcb, ack, now);
        }
        var ack :| ack in Gets(b, fin, 0, now).sent;
      }
    }
    var fin :| fin in a1.sent;
  }

  /** The second half: the FIN of `b`, which closes in CLOSE_WAIT, and its ACK; `a` is left in TIME_WAIT for 30 seconds
      and `b` is freed. */
  predicate Parts(a: Pcb, b: Pcb, now: nat, fin: Packet, ack: Packet) {
    var b1, a1 := Step(b, UserClose(now)), Gets(a, fin, 0, now);
    && fin in b1.sent && ack in a1.sent
    && a1.pcb.state == TimeWait && a1.pcb.twTimer == now + 30_000_000_000
    && Gets(b1.pcb, ack, 0, now).release
  }

  lemma PartsIff(a: Pcb, b: Pcb, now: nat)
    requires a.state == FinWait2 && b.state == CloseWait && a.snd.nxt == b.rcv.nxt && b.snd.nxt == a.rcv.nxt
    ensures (exists fin, ack :: Parts(a, b, now, fin, ack)) <==> Open(a) && Hears(b)
  {
    CloseSendsFin(b, now);
    var b1 := Step(b, UserClose(now));
    forall fin | fin in b1.sent
      ensures (exists ack :: Parts(a, b, now, fin, ack)) <==> Open(a) && Hears(b)
    {
      FinTakenIff(a, fin, now);
      if Open(a) {
        forall ack | ack in Gets(a, fin, 0, now).sent
          ensures Parts(a, b, now, fin, ack) <==> Hears(b)
        {
          FinAckTakenIff(b1.pcb, ack, now);
        }
        var ack :| ack in Gets(a, fin, 0, now).sent;
      }
    }
    var fin :| fin in b1.sent;
  }

  /** Both halves: `a` closes, then `b`. */
  predicate Closes(a: Pcb, b: Pcb, now: nat, fin: Packet, ack: Packet, fin2: Packet, ack2: Packet) {
    && HalfCloses(a, b, now, fin, ack)
    && Parts(Gets(Step(a, UserClose(now)).pcb, ack, 0, now).pcb, Gets(b, fin, 0, now).pcb, now, fin2, ack2)
  }

  /** What the first half leaves. */
  lemma HalfClosedAgrees(a: Pcb, b: Pcb, now: nat, fin: Packet, ack: Packet)
    requires a.state == b.state == Established && Agree(a, b) && HalfCloses(a, b, now, fin, ack)
    ensures var a2, b1 := Gets(Step(a, UserClose(now)).pcb, ack, 0, now).pcb, Gets(b, fin, 0, now).pcb;
      && a2.snd.nxt == b1.rcv.nxt == b.rcv.nxt + 1 && b1.snd.nxt == a2.rcv.nxt
      && a2.rcv == a.rcv && b1.rcv.wnd == b.rcv.wnd
  {
    CloseSendsFin(a, now);
    FinTakenIff(b, fin, now);
    FinAckTakenIff(Step(a, UserClose(now)).pcb, ack, now);
  }

  /** An orderly close of a quiet connection frees the block that closes last and leaves the other one in TIME_WAIT,
      exactly if both windows are open and lie below 2^32, with room for the FIN. */
  lemma OrderlyCloseIff(a: Pcb, b: Pcb, now: nat)
    requires a.state == b.state == Established && Agree(a, b)
    ensures (exists fin, ack, fin2, ack2 :: Closes(a, b, now, fin, ack, fin2, ack2)) <==>
      Open(a) && b.rcv.wnd > 0 && b.rcv.nxt + 1 + b.rcv.wnd < M32
  {
    HalfClosesIff(a, b, now);
    forall fin, ack | HalfCloses(a, b, now, fin, ack)
      ensures (exists fin2, ack2 :: Closes(a, b, now, fin, ack, fin2, ack2)) <==>
        Open(a) && b.rcv.nxt + 1 + b.rcv.wnd < M32
    {
      SecondHalfIff(a, b, now, fin, ack);
    }
  }

  lemma SecondHalfIff(a: Pcb, b: Pcb, now: nat, fin: Packet, ack: Packet)
    requires a.state == b.state == Established && Agree(a, b) && HalfCloses(a, b, now, fin, ack) && Open(b)
    ensures (exists fin2, ack2 :: Closes(a, b, now, fin, ack, fin2, ack2)) <==>
      Open(a) && b.rcv.nxt + 1 + b.rcv.wnd < M32
  {
    HalfClosedAgrees(a, b, now, fin, ack);
    var a2, b1 := Gets(Step(a, UserClose(now)).pcb, ack, 0, now).pcb, Gets(b, fin, 0, now).pcb;
    PartsIff(a2, b1, now);
    if fin2, ack2 :| Parts(a2, b1, now, fin2, ack2) {
      assert Closes(a, b, now, fin, ack, fin2, ack2);
    }
  }

  // ---------------------------------------------------------------- closing at the same time

  /** A FIN that does not acknowledge the own one takes FIN_WAIT_1 to CLOSING exactly through an open window, and if the
      own FIN did not wrap SND.NXT. */
  lemma FinCrossesIff(x: Pcb, pk: Packet, now: nat)
    requires x.state == FinWait1 && pk.seg.flg == ACK_FIN && pk.seg.data == []
    requires pk.seg.sn == x.rcv.nxt && pk.seg.ack == x.snd.una && x.snd.nxt == Add32(x.snd.una, 1)
    ensures var r := Gets(x, pk, 0, now);
      && (r.pcb.state == Closing <==> Open(x) && x.snd.una < M32 - 1)
      && (Open(x) && x.snd.una < M32 - 1 ==>
            && r.pcb.rcv == RcvVars(x.rcv.nxt + 1, x.rcv.wnd) && r.pcb.snd.nxt == x.snd.nxt
            && r.pcb.local == x.local && r.pcb.remote == x.remote
            && r.sent != {} && forall ack :: ack in r.sent ==> IsAck(ack, x, x.rcv.nxt + 1))
  {
    assert pk.seg.Len() == 1;
    var r := Gets(x, pk, 0, now);
    if Open(x) && x.snd.una < M32 - 1 {
      var m := AckStage(x, pk.seg, pk.dst, pk.src, now);
      assert m.pcb.rcv == x.rcv && m.pcb.state == FinWait1 && m.sent == {};
      assert r.sent == {Transmit(r.pcb, ACK, [])};
    }
  }

  /** The ACK of the own FIN takes CLOSING to TIME_WAIT, if it is heard. */
  lemma ClosingEndsIff(x: Pcb, pk: Packet, now: nat)
    requires x.state == Closing && pk.seg.flg == ACK && pk.seg.data == []
    requires pk.seg.sn == x.rcv.nxt && pk.seg.ack == x.snd.nxt
    ensures var q := Gets(x, pk, 0, now).pcb;
      && (q.state == TimeWait <==> Hears(x)) && (Hears(x) ==> q.twTimer == now + 30_000_000_000)
  {
  }

  /** `x` has closed, gets the FIN of its peer and then the ACK of its own. */
  predicate EndsCrossed(x: Pcb, now: nat, fin: Packet, ack: Packet) {
    var x1 := Gets(Step(x, UserClose(now)).pcb, fin, 0, now).pcb;
    x1.state == Closing && Gets(x1, ack, 0, now).pcb.state == TimeWait
  }

  /** Both sides close, their FINs cross, and each FIN is acknowledged. */
  predicate Crosses(a: Pcb, b: Pcb, now: nat, finA: Packet, finB: Packet, ackA: Packet, ackB: Packet) {
    && finA in Step(a, UserClose(now)).sent && finB in Step(b, UserClose(now)).sent
    && ackA in Gets(Step(a, UserClose(now)).pcb, finB, 0, now).sent
    && ackB in Gets(Step(b, UserClose(now)).pcb, finA, 0, now).sent
    && EndsCrossed(a, now, finB, ackB) && EndsCrossed(b, now, finA, ackA)
  }

  /** One side of it. */
  lemma EndsCrossedIff(x: Pcb, y: Pcb, now: nat, fin: Packet)
    requires x.state == y.state == Established && Agree(x, y) && IsFin(fin, y)
    ensures var x1, ends := Gets(Step(x, UserClose(now)).pcb, fin, 0, now), Open(x) && x.snd.nxt < M32 - 1;
      && (x1.pcb.state == Closing <==> ends)
      && (ends ==>
            && x1.sent != {} && (forall ack :: ack in x1.sent ==> IsAck(ack, x1.pcb, x.rcv.nxt + 1))
            && x1.pcb.snd.nxt == x.snd.nxt + 1 && x1.pcb.rcv == RcvVars(x.rcv.nxt + 1, x.rcv.wnd)
            && x1.pcb.local == x.local && x1.pcb.remote == x.remote)
  {
    CloseSendsFin(x, now);
    FinCrossesIff(Step(x, UserClose(now)).pcb, fin, now);
  }

  /** Then both blocks end in TIME_WAIT, exactly if both windows are open and lie below 2^32 with room for the FIN. */
  lemma CrossedCloseIff(a: Pcb, b: Pcb, now: nat)
    requires a.state == b.state == Established && Agree(a, b)
    ensures (exists finA, finB, ackA, ackB :: Crosses(a, b, now, finA, finB, ackA, ackB)) <==>
      a.rcv.wnd > 0 && a.rcv.nxt + 1 + a.rcv.wnd < M32 && b.rcv.wnd > 0 && b.rcv.nxt + 1 + b.rcv.wnd < M32
  {
    CloseSendsFin(a, now);
    CloseSendsFin(b, now);
    forall finA, finB | finA in Step(a, UserClose(now)).sent && finB in Step(b, UserClose(now)).sent
      ensures (exists ackA, ackB :: Crosses(a, b, now, finA, finB, ackA, ackB)) <==>
        a.rcv.wnd > 0 && a.rcv.nxt + 1 + a.rcv.wnd < M32 && b.rcv.wnd > 0 && b.rcv.nxt + 1 + b.rcv.wnd < M32
    {
      CrossedAcksIff(a, b, now, finA, finB);
    }
    var finA, finB :| finA in Step(a, UserClose(now)).sent && finB in Step(b, UserClose(now)).sent;
  }

  lemma CrossedAcksIff(a: Pcb, b: Pcb, now: nat, finA: Packet, finB: Packet)
    requires a.state == b.state == Established && Agree(a, b) && IsFin(finA, a) && IsFin(finB, b)
    requires finA in Step(a, UserClose(now)).sent && finB in Step(b, UserClose(now)).sent
    ensures (exists ackA, ackB :: Crosses(a, b, now, finA, finB, ackA, ackB)) <==>
      a.rcv.wnd > 0 && a.rcv.nxt + 1 + a.rcv.wnd < M32 && b.rcv.wnd > 0 && b.rcv.nxt + 1 + b.rcv.wnd < M32
  {
    EndsCrossedIff(a, b, now, finB);
    EndsCrossedIff(b, a, now, finA);
    if Open(a) && Open(b) && a.snd.nxt < M32 - 1 && b.snd.nxt < M32 - 1 {
      var a1, b1 := Gets(Step(a, UserClose(now)).pcb, finB, 0, now), Gets(Step(b, UserClose(now)).pcb, finA, 0, now);
      forall ackA, ackB | ackA in a1.sent && ackB in b1.sent
        ensures Crosses(a, b, now, finA, finB, ackA, ackB) <==> Hears(a1.pcb) && Hears(b1.pcb)
      {
        ClosingEndsIff(a1.pcb, ackB, now);
        ClosingEndsIff(b1.pcb, ackA, now);
      }
      var ackA, ackB :| ackA in a1.sent && ackB in b1.sent;
    }
  }

  // ---------------------------------------------------------------- refusing

  /** A connection to a port where nothing is open is refused: the reset that comes back frees the client's block
      exactly if its initial number is not the last one. */
  lemma RefusalEndsIff(o: Opening)
    requires o.a.queue == []
    ensures forall syn :: syn in o.Connects().sent ==>
      && Refuse(syn.seg, syn.dst, syn.src) != {}
      && forall reset :: reset in Refuse(syn.seg, syn.dst, syn.src) ==>
           (Gets(o.Connects().pcb, reset, 0, o.now).release <==> o.issA < M32 - 1)
    ensures o.Connects().sent != {}
  {
    assert o.Connects().sent == {SynOf(o)};
  }
}
