/** Reachable blocks in which something goes otherwise than one would expect. Each begins with a listener's child, whose
    peer completes the handshake. */
module TcpCases {
  import opened Wrappers
  import opened Words
  import opened Inet
  import opened TcpPcb
  import opened TcpConn
  import opened TcpWake
  import E = TcpExamples

  /** Its FIN is out. */
  const FIN_OUT := E.OPEN.(finSent := true)

  const SECONDS := 1_000_000_000

  /** The child in ESTABLISHED, with the window its peer offered. */
  function Opened(isn: u32, wnd: u16): Pcb
    requires isn + 1 < M32
  {
    EmptyPcb(0).(state := Established, local := E.HERE, remote := E.THERE, parent := Some(0), iss := isn,
                 snd := SndVars(isn + 1, isn + 1, wnd, 1, isn + 1), rcv := RcvVars(1, 65535))
  }

  function Gets(sn: u32, ack: u32, flg: Flags, wnd: u16): Event {
    Arrival(Segment(sn, ack, flg, wnd, []), E.HERE, E.THERE, 0, 0)
  }

  lemma Handshake(isn: u32, wnd: u16)
    requires isn + 1 < M32
    ensures Reachable(Conn(Opened(isn, wnd), E.OPEN, true))
  {
    var b := Child(0, 0, Segment(0, 0, SYN, 65535, []), E.HERE, E.THERE, isn, 0);
    var c, ev := Born(b), Gets(1, isn + 1, ACK, wnd);
    ReachableBorn(b);
    assert c.p.queue == [QueueEntry(0, 0, DEFAULT_RTO, isn, SYN_ACK, [])];
    assert c.p.queue[1..] == [];
    assert Cleanup(c.p.queue, isn + 1) == [];
    assert AckStage(c.p, ev.seg, E.HERE, E.THERE, 0) == Stage(Opened(isn, wnd), {}, 1, true, Continue);
    assert Passes(c.p, ev.seg);
    Arrives(c, ev, Opened(isn, wnd), Opened(isn, wnd));
    assert Observe(c.h, c.p, ev, Opened(isn, wnd)) == E.OPEN;
  }

  /** What an arrival that passes the checks does, stage by stage, when it carries no text. */
  lemma Arrives(c: Conn, ev: Event, a: Pcb, q: Pcb)
    requires Reachable(c) && c.alive && ev.Arrival? && Synchronized(c.p.state)
    requires Passes(c.p, ev.seg) && ev.seg.data == []
    requires AckStage(c.p, ev.seg, ev.local, ev.remote, ev.now).pcb == a
    requires AckStage(c.p, ev.seg, ev.local, ev.remote, ev.now).verdict == Continue
    requires FinStage(a, ev.seg, ev.now).pcb == q && q.buf == c.p.buf && q.state != Closed
    ensures Reachable(Conn(q, Observe(c.h, c.p, ev, q), true))
  {
    ReachableNext(c, ev);
    assert TextStage(a, ev.seg).pcb == a;
    assert Step(c.p, ev).pcb == q && !Step(c.p, ev).release;
  }

  /** The block after the event is `d`. */
  lemma Goes(c: Conn, ev: Event, d: Conn)
    requires Reachable(c) && Legal(c, ev) && Next(c, ev) == d
    ensures Reachable(d)
  {
    ReachableNext(c, ev);
  }

  // ---------------------------------------------------------------- a window that opens silently

  /** One byte in flight fills the window of one. */
  const FULL := Opened(100, 1).(mss := 1000, snd := SndVars(102, 101, 1, 1, 101),
                                queue := [QueueEntry(0, 0, DEFAULT_RTO, 101, ACK_PSH, [7])])

  lemma FillsWindow()
    ensures Reachable(Conn(FULL, E.OPEN.(written := [7]), true))
  {
    Handshake(100, 1);
    var c := Conn(Opened(100, 1), E.OPEN, true);
    var d := Conn(Opened(100, 1).(mss := 1000), E.OPEN, true);
    Goes(c, SetMss(1000), d);
    assert [7][..1] == [7];
    Goes(d, UserSend([7], 0), Conn(FULL, E.OPEN.(written := [7]), true));
  }

  /** A reachable block whose `send` has to wait; the ACK that opens the window wide notifies nobody. */
  lemma SilentWindowReached()
    ensures Reachable(Conn(FULL, E.OPEN.(written := [7]), true)) && Capacity(FULL) == 0
    ensures var r := Step(FULL, Gets(1, 102, ACK, 1000)); Capacity(r.pcb) == 1000 && r.notices == 0 && !r.release
  {
    FillsWindow();
    WindowOpensSilently(FULL, E.HERE, E.THERE, 0);
  }

  // ---------------------------------------------------------------- TIME_WAIT from CLOSING

  /** Closed by its user, the FIN queued. */
  function Shut(isn: u32): Pcb
    requires isn + 1 < M32
  {
    Opened(isn, 1000).(state := FinWait1, snd := SndVars(Add32(isn + 1, 1), isn + 1, 1000, 1, isn + 1),
                       queue := [QueueEntry(0, 0, DEFAULT_RTO, isn + 1, ACK_FIN, [])])
  }

  lemma Shuts(isn: u32)
    requires isn + 1 < M32
    ensures Reachable(Conn(Shut(isn), FIN_OUT, true))
  {
    Handshake(isn, 1000);
    Goes(Conn(Opened(isn, 1000), E.OPEN, true), UserClose(0), Conn(Shut(isn), FIN_OUT, true));
  }

  const CROSSED := Shut(100).(state := Closing, rcv := RcvVars(2, 65535))
  const WAITING := CROSSED.(state := TimeWait, twTimer := TIMEWAIT)

  lemma Crosses()
    ensures Reachable(Conn(CROSSED, FIN_OUT.(finSeen := true), true))
  {
    Shuts(100);
    var ev := Gets(1, 101, ACK_FIN, 1000);
    var c := Conn(Shut(100), FIN_OUT, true);
    assert Passes(c.p, ev.seg);
    assert AckStage(c.p, ev.seg, E.HERE, E.THERE, 0) == Stage(c.p, {}, 0, false, Continue);
    assert FinStage(c.p, ev.seg, 0).pcb == CROSSED;
    Arrives(c, ev, c.p, CROSSED);
    assert Observe(c.h, c.p, ev, CROSSED) == FIN_OUT.(finSeen := true);
  }

  lemma Waits()
    ensures Reachable(Conn(WAITING, FIN_OUT.(finSeen := true), true))
  {
    Crosses();
    var ev := Gets(2, 102, ACK, 1000);
    var c := Conn(CROSSED, FIN_OUT.(finSeen := true), true);
    assert Passes(c.p, ev.seg);
    assert AckStage(c.p, ev.seg, E.HERE, E.THERE, 0) == Stage(WAITING, {}, 1, false, Continue);
    Arrives(c, ev, WAITING, WAITING);
    assert Observe(c.h, c.p, ev, WAITING) == c.h;
  }

  /** After the FINs cross, TIME_WAIT still has the acknowledged FIN queued: the timer run 12 seconds after it was sent
      closes the block, which is 18 seconds early, and does not free it. */
  lemma ClosingEndsEarly() returns (d: Conn)
    ensures Reachable(Conn(WAITING, FIN_OUT.(finSeen := true), true))
    ensures WAITING.twTimer == 30 * SECONDS && WAITING.queue != []
    ensures d == Next(Conn(WAITING, FIN_OUT.(finSeen := true), true), Timer(12 * SECONDS))
    ensures Reachable(d) && d.alive && d.p.state == Closed
  {
    Waits();
    var c := Conn(WAITING, FIN_OUT.(finSeen := true), true);
    d := Next(c, Timer(12 * SECONDS));
    assert WAITING.queue[0] in WAITING.queue;
    Goes(c, Timer(12 * SECONDS), d);
  }

  // ---------------------------------------------------------------- FIN_WAIT2 with a wrapped sender

  /** The FIN of a block with ISS 2^32 - 2 takes the last sequence number. */
  const WRAPPED := Shut(M32 - 2).(state := FinWait2)

  /** Its acknowledgment, 0, is below SND.UNA, hence a duplicate; yet it equals SND.NXT, so the block enters FIN_WAIT2
      with its FIN still queued. */
  lemma WrappedFinWait2()
    ensures Reachable(Conn(WRAPPED, FIN_OUT, true)) && WRAPPED.state == FinWait2 && WRAPPED.queue != []
    ensures WRAPPED.snd.nxt < WRAPPED.snd.una
  {
    Shuts(M32 - 2);
    var ev := Gets(1, 0, ACK, 1000);
    var c := Conn(Shut(M32 - 2), FIN_OUT, true);
    assert Passes(c.p, ev.seg);
    assert AckStage(c.p, ev.seg, E.HERE, E.THERE, 0) == Stage(WRAPPED, {}, 0, false, Continue);
    Arrives(c, ev, WRAPPED, WRAPPED);
    assert Observe(c.h, c.p, ev, WRAPPED) == FIN_OUT;
  }

  // ---------------------------------------------------------------- a FIN that wakes no reader

  const HALF := Shut(100).(state := FinWait2, snd := SndVars(102, 102, 1000, 1, 102), queue := [])

  lemma Halves()
    ensures Reachable(Conn(HALF, FIN_OUT, true))
  {
    Shuts(100);
    var p, ev := Shut(100), Gets(1, 102, ACK, 1000);
    assert p.queue[1..] == [];
    assert Cleanup(p.queue, 102) == [];
    assert TakeAck(p, ev.seg) == HALF.(state := FinWait1);
    assert AckStage(p, ev.seg, E.HERE, E.THERE, 0) == Stage(HALF, {}, 0, false, Continue);
    assert Passes(p, ev.seg);
    Arrives(Conn(p, FIN_OUT, true), ev, HALF, HALF);
    assert Observe(FIN_OUT, p, ev, HALF) == FIN_OUT;
  }

  /** A reachable block in FIN_WAIT2 whose `receive` has to wait; the FIN that ends the stream notifies nobody. */
  lemma SilentFinReached()
    ensures Reachable(Conn(HALF, FIN_OUT, true)) && ReceiveWaits(HALF)
    ensures var r := Step(HALF, Gets(1, 102, ACK_FIN, 1000)); !ReceiveWaits(r.pcb) && r.notices == 0 && !r.release
  {
    Halves();
    var seg := Segment(1, 102, ACK_FIN, 1000, []);
    assert Passes(HALF, seg) && !AcksUnsent(HALF, seg);
    LostReceiveIff(HALF, seg, E.HERE, E.THERE, 0);
  }
}
