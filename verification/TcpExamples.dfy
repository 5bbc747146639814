/** A run in which a FIN overtakes a byte of text, and the byte is lost. */
module TcpExamples {
  import opened Wrappers
  import opened Words
  import opened Inet
  import opened TcpPcb
  import opened TcpConn
  import opened TcpStream

  const HERE := Endpoint(IpAddr(10, 0, 0, 1), 1)
  const THERE := Endpoint(IpAddr(10, 0, 0, 2), 2)

  const SYN_A := Segment(100, 0, SYN, 65535, [])
  const SYN_B := Segment(300, 101, SYN_ACK, 65535, [])
  const ACK_A := Segment(101, 301, ACK, 65535, [])
  const TEXT_A := Segment(101, 301, ACK_PSH, 65535, [7])
  const FIN_A := Segment(102, 301, ACK_FIN, 65535, [])
  const ACK_B := Segment(301, 103, ACK, 65535, [])

  function Entry(sn: u32, flg: Flags, data: Payload): QueueEntry {
    QueueEntry(0, 0, DEFAULT_RTO, sn, flg, data)
  }

  // A through SYN_SENT, ESTABLISHED and FIN_WAIT1 to FIN_WAIT2

  const A0 := EmptyPcb(0)
  const A1 := A0.(state := SynSent, local := HERE, remote := THERE, snd := SndVars(101, 100, 0, 0, 0), iss := 100,
                  rcv := RcvVars(0, 65535), queue := [Entry(100, SYN, [])])
  const A2 := A1.(state := Established, snd := SndVars(101, 101, 65535, 300, 101), rcv := RcvVars(301, 65535),
                  irs := 300, queue := [])
  const A3 := A2.(mss := 1000)
  const A4 := A3.(snd := A3.snd.(nxt := 102), queue := [Entry(101, ACK_PSH, [7])])
  const A5 := A4.(state := FinWait1, snd := A4.snd.(nxt := 103),
                  queue := [Entry(101, ACK_PSH, [7]), Entry(102, ACK_FIN, [])])
  const A6 := A5.(state := FinWait2, snd := SndVars(103, 103, 65535, 301, 103), queue := [])

  // B through LISTEN, SYN_RECEIVED and ESTABLISHED to CLOSE_WAIT

  const B1 := A0.(state := Listen, local := THERE)
  const B2 := B1.(state := SynReceived, remote := HERE, snd := SndVars(301, 300, 0, 0, 0), iss := 300,
                  rcv := RcvVars(101, 65535), irs := 100, queue := [Entry(300, SYN_ACK, [])])
  const B3 := B2.(state := Established, snd := SndVars(301, 301, 65535, 101, 301), queue := [])
  const B4 := B3.(state := CloseWait, rcv := RcvVars(103, 65535))

  const USED := NO_HIST.(used := true)
  const BEGUN := USED.(begun := true)
  const OPEN := BEGUN.(synced := true)
  const SPOKE := OPEN.(written := [7])
  const SHUT := SPOKE.(finSent := true)
  const HUNG := OPEN.(finSeen := true)

  /** The event takes the endpoint from `c` to `d`, sending `sent`. */
  predicate Takes(c: Conn, ev: Event, d: Conn, sent: set<Packet>) {
    c.alive && Legal(c, ev) && Next(c, ev) == d && Step(c.p, ev).sent == sent
  }

  const LISTENS := UserListen(THERE, WILDCARD, 0)
  const CONNECTS := UserConnect(HERE, THERE, 100, true, 0)
  const GETS_SYN := Arrival(SYN_A, THERE, HERE, 300, 0)
  const GETS_SYN_ACK := Arrival(SYN_B, HERE, THERE, 0, 0)
  const GETS_ACK := Arrival(ACK_A, THERE, HERE, 0, 0)
  const GETS_FIN := Arrival(FIN_A, THERE, HERE, 0, 0)
  const GETS_FIN_ACK := Arrival(ACK_B, HERE, THERE, 0, 0)

  /** One more move of a run. */
  lemma MoveA(t: seq<Net>, ms: seq<Move>, ev: Event, d: Conn, pks: set<Packet>) returns (u: seq<Net>, ns: seq<Move>)
    requires IsNetRun(t, ms) && Takes(t[|ms|].a, ev, d, pks) && (ev.Arrival? ==> ev.seg in t[|ms|].fromB)
    ensures IsNetRun(u, ns) && u[|ns|] == t[|ms|].(a := d, fromA := t[|ms|].fromA + Segments(pks))
  {
    u, ns := t + [NetStep(t[|ms|], AtA(Do(ev)))], ms + [AtA(Do(ev))];
    assert u[0] == t[0];
  }

  lemma MoveB(t: seq<Net>, ms: seq<Move>, ev: Event, d: Conn, pks: set<Packet>) returns (u: seq<Net>, ns: seq<Move>)
    requires IsNetRun(t, ms) && Takes(t[|ms|].b, ev, d, pks) && (ev.Arrival? ==> ev.seg in t[|ms|].fromA)
    ensures IsNetRun(u, ns) && u[|ns|] == t[|ms|].(b := d, fromB := t[|ms|].fromB + Segments(pks))
  {
    u, ns := t + [NetStep(t[|ms|], AtB(Do(ev)))], ms + [AtB(Do(ev))];
    assert u[0] == t[0];
  }

  lemma OneSegment(pk: Packet)
    ensures Segments({pk}) == {pk.seg} && Segments({}) == {}
  {
  }

  lemma Listens()
    ensures Takes(Conn(A0, NO_HIST, true), LISTENS, Conn(B1, USED, true), {})
  {
  }

  lemma Connects()
    ensures Takes(Conn(A0, NO_HIST, true), CONNECTS, Conn(A1, BEGUN, true), {Packet(HERE, THERE, SYN_A)})
  {
  }

  lemma TakesSyn()
    ensures Takes(Conn(B1, USED, true), GETS_SYN, Conn(B2, OPEN, true), {Packet(THERE, HERE, SYN_B)})
  {
  }

  lemma TakesSynAck()
    ensures Takes(Conn(A1, BEGUN, true), GETS_SYN_ACK, Conn(A2, OPEN, true), {Packet(HERE, THERE, ACK_A)})
  {
    assert A1.queue[1..] == [];
    assert Cleanup(A1.queue, 101) == [];
    assert OnSynSent(A1, SYN_B, HERE, THERE, 0) == Reaction(A2, {Packet(HERE, THERE, ACK_A)}, 1, false, false);
  }

  lemma TakesAck()
    ensures Takes(Conn(B2, OPEN, true), GETS_ACK, Conn(B3, OPEN, true), {})
  {
    assert B2.queue[1..] == [];
    assert Cleanup(B2.queue, 301) == [];
    assert AckStage(B2, ACK_A, THERE, HERE, 0) == Stage(B3, {}, 1, true, Continue);
    assert Arrive(B2, ACK_A, THERE, HERE, 0, 0).pcb == B3;
  }

  lemma Writes()
    ensures Takes(Conn(A2, OPEN, true), SetMss(1000), Conn(A3, OPEN, true), {})
    ensures Takes(Conn(A3, OPEN, true), UserSend([7], 0), Conn(A4, SPOKE, true), {Packet(HERE, THERE, TEXT_A)})
  {
    assert [7][..1] == [7];
  }

  lemma Closes()
    ensures Takes(Conn(A4, SPOKE, true), UserClose(0), Conn(A5, SHUT, true), {Packet(HERE, THERE, FIN_A)})
  {
  }

  lemma TakesEarlyFin()
    ensures Takes(Conn(B3, OPEN, true), GETS_FIN, Conn(B4, HUNG, true), {Packet(THERE, HERE, ACK_B)})
  {
    assert AckStage(B3, FIN_A, THERE, HERE, 0) == Stage(B3, {}, 0, false, Continue);
    assert TextStage(B3, FIN_A) == Stage(B3, {}, 0, false, Continue);
  }

  lemma Forgets()
    ensures Takes(Conn(A5, SHUT, true), GETS_FIN_ACK, Conn(A6, SHUT, true), {})
  {
    assert A5.queue[1..] == [Entry(102, ACK_FIN, [])] && A5.queue[1..][1..] == [];
    assert Cleanup(A5.queue[1..], 103) == [];
    assert AckStage(A5, ACK_B, HERE, THERE, 0) == Stage(A6, {}, 0, false, Continue);
    assert TextStage(A6, ACK_B) == Stage(A6, {}, 0, false, Continue);
  }

  lemma Handshake() returns (t: seq<Net>, ms: seq<Move>)
    ensures IsNetRun(t, ms) && t[|ms|] == Net(Conn(A1, BEGUN, true), Conn(B2, OPEN, true), {SYN_A}, {SYN_B})
  {
    t, ms := [Net(Conn(A0, NO_HIST, true), Conn(A0, NO_HIST, true), {}, {})], [];
    assert t[0] == Net(Born(Allocated(0)), Born(Allocated(0)), {}, {});
    Listens();
    t, ms := MoveB(t, ms, LISTENS, Conn(B1, USED, true), {});
    Connects();
    OneSegment(Packet(HERE, THERE, SYN_A));
    t, ms := MoveA(t, ms, CONNECTS, Conn(A1, BEGUN, true), {Packet(HERE, THERE, SYN_A)});
    TakesSyn();
    OneSegment(Packet(THERE, HERE, SYN_B));
    t, ms := MoveB(t, ms, GETS_SYN, Conn(B2, OPEN, true), {Packet(THERE, HERE, SYN_B)});
  }

  lemma Conversation() returns (t: seq<Net>, ms: seq<Move>)
    ensures IsNetRun(t, ms)
    ensures t[|ms|] == Net(Conn(A4, SPOKE, true), Conn(B3, OPEN, true), {SYN_A, ACK_A, TEXT_A}, {SYN_B})
  {
    t, ms := Handshake();
    TakesSynAck();
    OneSegment(Packet(HERE, THERE, ACK_A));
    t, ms := MoveA(t, ms, GETS_SYN_ACK, Conn(A2, OPEN, true), {Packet(HERE, THERE, ACK_A)});
    TakesAck();
    t, ms := MoveB(t, ms, GETS_ACK, Conn(B3, OPEN, true), {});
    Writes();
    t, ms := MoveA(t, ms, SetMss(1000), Conn(A3, OPEN, true), {});
    OneSegment(Packet(HERE, THERE, TEXT_A));
    t, ms := MoveA(t, ms, UserSend([7], 0), Conn(A4, SPOKE, true), {Packet(HERE, THERE, TEXT_A)});
  }

  /** The FIN overtakes the byte: B acknowledges both having accepted nothing, and A forgets the byte. */
  lemma EarlyFinLosesText() returns (t: seq<Net>, ms: seq<Move>)
    ensures IsNetRun(t, ms)
    ensures var n := t[|ms|]; n.a.h.written == [7] && n.a.p.queue == [] && n.b.h.finSeen && n.b.h.accepted == []
  {
    t, ms := Conversation();
    Closes();
    OneSegment(Packet(HERE, THERE, FIN_A));
    t, ms := MoveA(t, ms, UserClose(0), Conn(A5, SHUT, true), {Packet(HERE, THERE, FIN_A)});
    TakesEarlyFin();
    OneSegment(Packet(THERE, HERE, ACK_B));
    t, ms := MoveB(t, ms, GETS_FIN, Conn(B4, HUNG, true), {Packet(THERE, HERE, ACK_B)});
    Forgets();
    t, ms := MoveA(t, ms, GETS_FIN_ACK, Conn(A6, SHUT, true), {});
  }
}
