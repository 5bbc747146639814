/** A reachable table in which `accept` hands out a block that nobody connected to: the child in the backlog was
    reset, and its slot went to another socket. */
module TcpAcceptCase {
  import opened Wrappers
  import opened Words
  import opened Inet
  import opened TcpPcb
  import opened TcpTable
  import opened TcpOps
  import opened TcpDemux
  import opened TcpDemuxCase
  import opened TcpHosts
  import H = TcpSockets

  const PORT := Endpoint(IpAddr(10, 0, 0, 1), 80)
  const PEER := Endpoint(IpAddr(10, 0, 0, 2), 5000)

  // The listener in slot 0.

  const L1 := EmptyPcb(0).(mode := Socket)
  const L2 := L1.(local := PORT)
  const L3 := L2.(state := Listen, backlogMax := 5)
  const L4 := L3.(backlog := [1])
  const L5 := L4.(backlog := [])

  // The child in slot 1, and the socket that comes after it.

  const C1 := EmptyPcb(1).(state := SynReceived, local := PORT, remote := PEER, iss := 300, irs := 500,
                           parent := Some(0), snd := SndVars(301, 300, 0, 0, 0), rcv := RcvVars(501, 65535),
                           queue := [QueueEntry(0, 0, DEFAULT_RTO, 300, SYN_ACK, [])])
  const C2 := C1.(state := Established, snd := SndVars(301, 301, 1000, 501, 301), queue := [])
  const S1 := EmptyPcb(2).(mode := Socket)
  const S2 := S1.(mss := 1460)

  const OPENS := Segment(501, 301, ACK, 1000, [])
  const RESETS := Segment(501, 0, RST, 0, [])

  lemma Binds(s: Sys)
    requires Shows(s, [Some(L1)], [0])
    ensures Shows(Do(s, BindOp(0, PORT)), [Some(L2)], [0])
  {
    assert SelectFrom(s.pcbs, 1, None, PORT, WILDCARD) == None;
    assert Select(s.pcbs, PORT, WILDCARD) == None;
  }

  lemma Called(s: Sys)
    requires Shows(s, [Some(L3)], [0])
    ensures Shows(Do(s, DeliverOp(CALL, PORT, PEER, 300, 0)), [Some(L3), Some(C1)], [0, 0])
  {
    assert SelectFrom(s.pcbs, 1, Some(0), PORT, PEER) == Some(0);
    assert Select(s.pcbs, PORT, PEER) == Some(0);
    assert FirstFree(s.pcbs, 1) == 1 && FirstFree(s.pcbs, 0) == 1;
    assert TakeSyn(EmptyPcb(1).(parent := Some(0)), CALL, PORT, PEER, 300, 0) == C1;
  }

  lemma ChildSelected(pcbs: Slots, l: Pcb, c: Pcb)
    requires pcbs == [Some(l), Some(c)] && l.state == Listen && l.local == PORT && l.remote == WILDCARD
    requires c.state != Listen && c.local == PORT && c.remote == PEER
    ensures Select(pcbs, PORT, PEER) == Some(1)
  {
    assert SelectFrom(pcbs, 1, Some(0), PORT, PEER) == Some(1);
  }

  lemma ChildOpens()
    ensures Arrive(C1, OPENS, PORT, PEER, 0, 0) == Reaction(C2, {}, 1, false, true)
  {
    assert Cleanup(C1.queue[1..], 301) == [];
    assert Cleanup(C1.queue, 301) == [];
    var a := AckStage(C1, OPENS, PORT, PEER, 0);
    assert a == Stage(C2, {}, 1, true, Continue);
  }

  lemma Completes(s: Sys)
    requires Shows(s, [Some(L3), Some(C1)], [0, 0])
    ensures Shows(Do(s, DeliverOp(OPENS, PORT, PEER, 0, 0)), [Some(L4), Some(C2)], [1, 1])
  {
    ChildSelected(s.pcbs, L3, C1);
    ChildOpens();
    var s1 := Reacted(s, 1, Arrive(C1, OPENS, PORT, PEER, 0, 0));
    assert Shows(s1, [Some(L3), Some(C2)], [0, 1]);
    assert L3.backlog + [1] == [1];
    assert Shows(Joined(s1, 1), [Some(L4), Some(C2)], [1, 1]);
  }

  lemma ChildReset()
    ensures Arrive(C2, RESETS, PORT, PEER, 0, 0) == Reaction(C2.(state := Closed), {}, 0, true, false)
  {
    assert RESETS.Len() == 0;
  }

  lemma FreesChild(s: Sys)
    requires Shows(s, [Some(L4), Some(C2.(state := Closed))], [1, 1])
    ensures Shows(Released(s, 1), [Some(L4), None], [1, 2])
  {
    ReachCloses(s.pcbs, 1);
    assert ClosedUnder(s.pcbs, {1});
    assert Reach(s.pcbs, 1) == {1};
    assert TasksOf(s.pcbs, {1}) == {1};
    assert Freed(s.pcbs, {1}) == [Some(L4), None] && Bumped(s.gens, {1}) == [1, 2];
  }

  lemma Resets(s: Sys)
    requires Shows(s, [Some(L4), Some(C2)], [1, 1])
    ensures Shows(Do(s, DeliverOp(RESETS, PORT, PEER, 0, 0)), [Some(L4), None], [1, 2])
  {
    ChildSelected(s.pcbs, L4, C2);
    ChildReset();
    FreesChild(Reacted(s, 1, Arrive(C2, RESETS, PORT, PEER, 0, 0)));
  }

  lemma SocketsAgain(s: Sys)
    requires Shows(s, [Some(L4), None], [1, 2])
    ensures Shows(Do(s, SocketOp), [Some(L4), Some(S1)], [1, 2, 0])
  {
    assert FirstFree(s.pcbs, 1) == 1 && FirstFree(s.pcbs, 0) == 1;
  }

  lemma Prepares() returns (t: seq<Sys>, ops: seq<Op>)
    ensures IsStackRun(t, ops) && Shows(t[|ops|], [Some(L4), Some(S1)], [1, 2, 0])
  {
    t, ops := [Sys([], [], {})], [];
    Sockets(t[|ops|]);
    t, ops := Goes(t, ops, SocketOp);
    Binds(t[|ops|]);
    t, ops := Goes(t, ops, BindOp(0, PORT));
    t, ops := Goes(t, ops, ListenOp(0, 5));
    Called(t[|ops|]);
    t, ops := Goes(t, ops, DeliverOp(CALL, PORT, PEER, 300, 0));
    Completes(t[|ops|]);
    t, ops := Goes(t, ops, DeliverOp(OPENS, PORT, PEER, 0, 0));
    Resets(t[|ops|]);
    t, ops := Goes(t, ops, DeliverOp(RESETS, PORT, PEER, 0, 0));
    SocketsAgain(t[|ops|]);
    t, ops := Goes(t, ops, SocketOp);
  }

  /** After these seven operations `accept` returns slot 1 as a connection, although the block there is a socket that
      was just made and belongs to somebody else. */
  lemma AcceptHandsOutStranger() returns (t: seq<Sys>, ops: seq<Op>)
    ensures IsStackRun(t, ops) && Live(t[|ops|].pcbs, 1)
    ensures t[|ops|].pcbs[1].value == EmptyPcb(2).(mode := Socket)
    ensures Accept(t[|ops|], 0, Some(1460)).1 == Accepted(1, WILDCARD)
  {
    t, ops := Prepares();
  }

  // ---------------------------------------------------------------- when it is the child

  lemma DeadIsAbsent(h: Host)
    requires HostInv(h) && !h.x.alive
    ensures !Present(h.sys, h.slot, h.task)
  {
  }

  lemma DeadAfter(t: seq<Host>, ops: seq<Op>, j: nat)
    requires H.IsHostRun(t, ops) && j < |ops| && !t[j].x.alive
    ensures !t[j + 1].x.alive
  {
    var op := ops[j];
    H.HostRunKeeps(t, ops, j);
    H.HostRunKeeps(t, ops, j + 1);
    DeadStaysDead(t[j], op);
  }

  /** A block that was released never comes back. */
  lemma {:induction false} ReleasedForGood(t: seq<Host>, ops: seq<Op>, k: nat, j: nat)
    requires H.IsHostRun(t, ops) && k <= j < |t| && !t[k].x.alive
    ensures !t[j].x.alive && !Present(t[j].sys, t[j].slot, t[j].task)
    decreases j
  {
    if k < j {
      ReleasedForGood(t, ops, k, j - 1);
      DeadAfter(t, ops, j - 1);
    }
    H.HostRunKeeps(t, ops, j);
    DeadIsAbsent(t[j]);
  }

  lemma DeadStaysDead(h: Host, op: Op)
    requires HostInv(h) && !h.x.alive && HostInv(HostStep(h, op))
    ensures !HostStep(h, op).x.alive
  {
    if Present(Do(h.sys, op), h.slot, h.task) {
      if Live(h.sys.pcbs, h.slot) {
        SurvivorTask(h.sys, op, h.slot);
      } else {
        NewbornFollows(h.sys, h.cs, op, h.slot);
      }
    }
  }

  /** The block that is followed is the child of a listener whose handshake is complete at moment `i`. When `accept`
      hands out its slot later, that is the child exactly if the child was not released in between. */
  lemma AcceptHandsOutChildIff(t: seq<Host>, ops: seq<Op>, i: nat, j: nat, l: nat, mss: Option<u16>)
    requires H.IsHostRun(t, ops) && i <= j < |t| && Present(t[i].sys, t[i].slot, t[i].task)
    requires Accept(t[j].sys, l, mss).1.Accepted? && Accept(t[j].sys, l, mss).1.desc == t[j].slot
    ensures Live(t[j].sys.pcbs, t[j].slot)
    ensures t[j].sys.pcbs[t[j].slot].value.task == t[j].task <==>
      forall k: nat :: i <= k <= j ==> Present(t[k].sys, t[k].slot, t[k].task)
  {
    if k: nat :| i <= k <= j && !Present(t[k].sys, t[k].slot, t[k].task) {
      GoneOnce(t, ops, i, k);
      ReleasedForGood(t, ops, k, j);
    }
  }

  /** Between a moment at which the block was there and one at which it was not, it was released. */
  lemma {:induction false} GoneOnce(t: seq<Host>, ops: seq<Op>, i: nat, k: nat)
    requires H.IsHostRun(t, ops) && i <= k < |t|
    requires Present(t[i].sys, t[i].slot, t[i].task) && !Present(t[k].sys, t[k].slot, t[k].task)
    ensures !t[k].x.alive
    decreases k
  {
    var op := ops[k - 1];
    assert t[k] == HostStep(t[k - 1], op);
    if !Present(t[k - 1].sys, t[k - 1].slot, t[k - 1].task) {
      GoneOnce(t, ops, i, k - 1);
      DeadAfter(t, ops, k - 1);
    } else {
      H.HostRunKeeps(t, ops, k - 1);
    }
  }
}
