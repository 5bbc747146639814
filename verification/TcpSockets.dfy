/** Who gets which connection, and which endpoint: the order in which `accept` hands out what the handshakes complete,
    and the verdicts of `bind`, `listen`, `open`, `connect` and `close` of src/tcp.rs. */
module TcpSockets {
  import opened Wrappers
  import opened Words
  import opened Inet
  import opened TcpPcb
  import opened TcpTable
  import opened TcpOps
  import opened TcpRefine
  import opened TcpHosts
  import opened TcpCalls
  import C = TcpConn
  import N = TcpStream
  import T = TcpTableEffects
  import X = TcpExchange

  // ---------------------------------------------------------------- accept

  /** What one pass of `accept` returns: the first block of the backlog if it is still live, with its peer's endpoint;
      it waits exactly on a listener without a backlog. A child is skipped if it is gone, and lost if there is no
      route. */
  lemma AcceptReturns(s: Sys, d: nat, mss: Option<u16>)
    ensures var r, t := Accept(s, d, mss).1, Do(s, AcceptOp(d, mss));
      && (r == Blocked <==> Live(s.pcbs, d) && s.pcbs[d].value.state == Listen && s.pcbs[d].value.backlog == [])
      && (r.Failed? || r.Blocked? || Listening(s, d))
      && (r.Accepted? <==> Listening(s, d) && Live(s.pcbs, s.pcbs[d].value.backlog[0]) && mss.Some?)
      && (r == Again <==> Listening(s, d) && !Live(s.pcbs, s.pcbs[d].value.backlog[0]))
      && (r.Accepted? ==>
            && [r.desc] == s.pcbs[d].value.backlog[..1] && Live(t.pcbs, r.desc)
            && r.remote == s.pcbs[r.desc].value.remote && Some(t.pcbs[r.desc].value.mss) == mss)
      && (if Listening(s, d)
          then Live(t.pcbs, d) && s.pcbs[d].value.backlog == [s.pcbs[d].value.backlog[0]] + t.pcbs[d].value.backlog
          else t == s)
  {
  }

  /** A live listener with a child to hand out. */
  predicate Listening(s: Sys, d: nat) {
    Live(s.pcbs, d) && s.pcbs[d].value.state == Listen && s.pcbs[d].value.backlog != []
  }

  /** A block joins its parent's backlog exactly by the segment that takes it from SYN_RECEIVED to ESTABLISHED, or on to
      CLOSE_WAIT. */
  lemma JoinIff(p: Pcb, ev: Event)
    requires ev.Arrival?
    ensures Step(p, ev).join <==> p.state == SynReceived && Step(p, ev).pcb.state in {Established, CloseWait}
  {
    if p.state == SynReceived {
      JoinsFromSynReceived(p, ev.seg, ev.local, ev.remote, ev.now);
    }
  }

  lemma JoinsFromSynReceived(p: Pcb, seg: Segment, local: Endpoint, remote: Endpoint, now: nat)
    requires p.state == SynReceived
    ensures var r := OnSynchronized(p, seg, local, remote, now);
      r.join <==> r.pcb.state in {Established, CloseWait}
  {
    var a := AckStage(p, seg, local, remote, now);
    if a.verdict == Continue {
      assert a.join && a.pcb.state == Established;
      C.StagesSplit(a, seg, now);
    }
  }

  /** The child that an operation completes for the listener in slot `l`, if any. */
  ghost function Completed(s: Sys, op: Op, l: nat): seq<nat> {
    if op.DeliverOp? && Select(s.pcbs, op.local, op.remote).Some? then
      var d := Select(s.pcbs, op.local, op.remote).value;
      if d != l && Live(s.pcbs, d) && Live(Do(s, op).pcbs, d) && s.pcbs[d].value.parent == Some(l)
         && s.pcbs[d].value.state == SynReceived && Do(s, op).pcbs[d].value.state in {Established, CloseWait}
      then [d] else []
    else []
  }

  /** The child that an operation takes out of the backlog of the listener in slot `l`, if any. */
  function Removed(s: Sys, op: Op, l: nat): seq<nat> {
    if op.AcceptOp? && op.desc == l && Listening(s, l) then [s.pcbs[l].value.backlog[0]] else []
  }

  lemma AckKeepsBacklog(p: Pcb, seg: Segment, local: Endpoint, remote: Endpoint, now: nat)
    ensures AckStage(p, seg, local, remote, now).pcb.backlog == p.backlog
  {
  }

  lemma LaterKeepsBacklog(a: Stage, seg: Segment, now: nat)
    ensures AfterAck(a, seg, now).pcb.backlog == a.pcb.backlog
  {
    var t := TextStage(a.pcb, seg);
    assert t.pcb.backlog == a.pcb.backlog && FinStage(t.pcb, seg, now).pcb.backlog == a.pcb.backlog;
  }

  lemma SynchronizedKeepsBacklog(p: Pcb, seg: Segment, local: Endpoint, remote: Endpoint, now: nat)
    ensures OnSynchronized(p, seg, local, remote, now).pcb.backlog == p.backlog
  {
    AckKeepsBacklog(p, seg, local, remote, now);
    LaterKeepsBacklog(AckStage(p, seg, local, remote, now), seg, now);
  }

  /** An arrival leaves the backlog of the block it is for. */
  lemma ArrivalKeepsBacklog(p: Pcb, ev: Event)
    requires ev.Arrival?
    ensures Step(p, ev).pcb.backlog == p.backlog
  {
    if C.Synchronized(p.state) {
      SynchronizedKeepsBacklog(p, ev.seg, ev.local, ev.remote, ev.now);
    }
  }

  /** The child is complete exactly if its reaction says so. */
  lemma CompletedIsJoin(s: Sys, op: Op, l: nat, d: nat)
    requires ValidSys(s) && T.Selected(s, op, d)
    ensures var p, ev := s.pcbs[d].value, Arrival(op.seg, op.local, op.remote, op.isn, op.now);
      Completed(s, op, l) == if d != l && Step(p, ev).join && p.parent == Some(l) then [d] else []
  {
    var p, ev := s.pcbs[d].value, Arrival(op.seg, op.local, op.remote, op.isn, op.now);
    T.SelectedReacts(s, op, d);
    JoinIff(p, ev);
    JoinOrRelease(p, ev);
  }

  lemma DeliveryBacklog(s: Sys, cs: seq<Conn>, op: Op, l: nat)
    requires ValidSys(s) && Tracks(s, cs) && op.DeliverOp? && Live(s.pcbs, l)
    ensures Through(cs[l], EventsAt(s, op, l)).p.backlog == s.pcbs[l].value.backlog + Completed(s, op, l)
  {
    SelectSpec(s.pcbs, op.local, op.remote);
    var sel := Select(s.pcbs, op.local, op.remote);
    if sel.Some? && T.Selected(s, op, sel.value) {
      SelectedBacklog(s, cs, op, l, sel.value);
    } else {
      assert EventsAt(s, op, l) == [];
      NothingCompleted(s, op, l);
    }
  }

  /** A listener that spawns a child completes none. */
  lemma NothingCompleted(s: Sys, op: Op, l: nat)
    requires op.DeliverOp? && forall d: nat :: !T.Selected(s, op, d)
    ensures Completed(s, op, l) == []
  {
    var sel := Select(s.pcbs, op.local, op.remote);
    if sel.Some? {
      assert !T.Selected(s, op, sel.value);
    }
  }

  /** The events of a delivery, seen from block `l`. */
  lemma SelectedEvents(s: Sys, op: Op, l: nat, d: nat)
    requires T.Selected(s, op, d) && Live(s.pcbs, l)
    ensures var p, ev := s.pcbs[d].value, Arrival(op.seg, op.local, op.remote, op.isn, op.now);
      EventsAt(s, op, l) == if l == d then [ev] else if Step(p, ev).join && p.parent == Some(l) then [Push(d)] else []
  {
  }

  lemma ThroughArrival(c: Conn, ev: Event)
    requires ev.Arrival?
    ensures Through(c, [ev]).p.backlog == c.p.backlog
  {
    ThroughOne(c, ev);
    ArrivalKeepsBacklog(c.p, ev);
  }

  lemma ThroughPush(c: Conn, d: nat)
    ensures Through(c, [Push(d)]).p.backlog == c.p.backlog + [d]
  {
    ThroughOne(c, Push(d));
  }

  lemma SelectedBacklog(s: Sys, cs: seq<Conn>, op: Op, l: nat, d: nat)
    requires ValidSys(s) && Tracks(s, cs) && T.Selected(s, op, d) && Live(s.pcbs, l)
    ensures Through(cs[l], EventsAt(s, op, l)).p.backlog == s.pcbs[l].value.backlog + Completed(s, op, l)
  {
    CompletedIsJoin(s, op, l, d);
    SelectedEvents(s, op, l, d);
    ThroughArrival(cs[l], Arrival(op.seg, op.local, op.remote, op.isn, op.now));
    ThroughPush(cs[l], d);
    assert s.pcbs[l].value.backlog + [] == s.pcbs[l].value.backlog;
  }

  lemma AcceptBacklog(s: Sys, cs: seq<Conn>, op: Op, l: nat)
    requires Tracks(s, cs) && op.AcceptOp? && Live(s.pcbs, l)
    ensures s.pcbs[l].value.backlog == Removed(s, op, l) + Through(cs[l], EventsAt(s, op, l)).p.backlog
  {
    ThroughOne(cs[l], Pop);
    if op.path.Some? {
      ThroughOne(cs[l], SetMss(op.path.value));
      ThroughTwo(cs[l], Pop, SetMss(op.path.value));
    }
  }

  lemma OtherBacklog(s: Sys, cs: seq<Conn>, op: Op, l: nat)
    requires Tracks(s, cs) && !op.AcceptOp? && !op.DeliverOp? && Live(s.pcbs, l)
    ensures Through(cs[l], EventsAt(s, op, l)).p.backlog == s.pcbs[l].value.backlog
  {
    var evs := EventsAt(s, op, l);
    if evs != [] {
      ThroughOne(cs[l], evs[0]);
    }
  }

  /** What was in the backlog and what an operation completes is what it removes and what is left, in that order. */
  lemma StepBacklog(h: Host, op: Op)
    requires HostInv(h) && Present(h.sys, h.slot, h.task) && Present(Do(h.sys, op), h.slot, h.task)
    ensures h.x.p.backlog + Completed(h.sys, op, h.slot)
            == Removed(h.sys, op, h.slot) + HostStep(h, op).x.p.backlog
  {
    if op.DeliverOp? {
      DeliveryBacklog(h.sys, h.cs, op, h.slot);
    } else if op.AcceptOp? {
      AcceptBacklog(h.sys, h.cs, op, h.slot);
    } else {
      OtherBacklog(h.sys, h.cs, op, h.slot);
    }
  }

  /** A run of one host from its start, with a block that is followed. */
  ghost predicate IsHostRun(t: seq<Host>, ops: seq<Op>) {
    && |t| == |ops| + 1 && Booted(t[0])
    && forall i {:trigger ops[i]} :: 0 <= i < |ops| ==>
         Once(t[i].sys, t[i].cs, ops[i]) && t[i + 1] == HostStep(t[i], ops[i])
  }

  lemma {:induction false} HostRunKeeps(t: seq<Host>, ops: seq<Op>, i: nat)
    requires IsHostRun(t, ops) && i < |t|
    ensures HostInv(t[i]) && t[i].slot == t[0].slot && t[i].task == t[0].task
  {
    if i > 0 {
      HostRunKeeps(t, ops, i - 1);
      StepKeepsHost(t[i - 1], ops[i - 1]);
    }
  }

  ghost function Completions(t: seq<Host>, ops: seq<Op>): seq<seq<nat>>
    requires |ops| <= |t|
  {
    seq(|ops|, m requires 0 <= m < |ops| => Completed(t[m].sys, ops[m], t[m].slot))
  }

  ghost function Removals(t: seq<Host>, ops: seq<Op>): seq<seq<nat>>
    requires |ops| <= |t|
  {
    seq(|ops|, m requires 0 <= m < |ops| => Removed(t[m].sys, ops[m], t[m].slot))
  }

  /** Step `m` takes from the front of a queue and adds at its end. */
  predicate Shifts(queues: seq<seq<nat>>, added: seq<seq<nat>>, gone: seq<seq<nat>>, m: nat)
    requires m < |added| == |gone| < |queues|
  {
    queues[m] + added[m] == gone[m] + queues[m + 1]
  }

  /** What `pieces` holds from `i` up to `j`, one after the other. */
  function Between<T>(pieces: seq<seq<T>>, i: nat, j: nat): seq<T>
    requires i <= j <= |pieces|
  {
    Joint(pieces[i..], j - i)
  }

  lemma BetweenStep<T>(pieces: seq<seq<T>>, i: nat, j: nat)
    requires i < j <= |pieces|
    ensures Between(pieces, i, j) == Between(pieces, i, j - 1) + pieces[j - 1]
  {
  }

  lemma {:induction false} ShiftsJoin(queues: seq<seq<nat>>, added: seq<seq<nat>>, gone: seq<seq<nat>>, i: nat, j: nat)
    requires i <= j <= |added| == |gone| < |queues|
    requires forall m: nat :: i <= m < j ==> Shifts(queues, added, gone, m)
    ensures queues[i] + Between(added, i, j) == Between(gone, i, j) + queues[j]
    decreases j
  {
    if i < j {
      ShiftsJoin(queues, added, gone, i, j - 1);
      assert Shifts(queues, added, gone, j - 1);
      BetweenStep(added, i, j);
      BetweenStep(gone, i, j);
      Regroup(queues[i], Between(added, i, j - 1), added[j - 1], Between(gone, i, j - 1), queues[j - 1], gone[j - 1],
              queues[j]);
    }
  }

  lemma Regroup(q: seq<nat>, a: seq<nat>, x: seq<nat>, g: seq<nat>, r: seq<nat>, y: seq<nat>, s: seq<nat>)
    requires q + a == g + r && r + x == y + s
    ensures q + (a + x) == (g + y) + s
  {
    assert q + (a + x) == (q + a) + x;
    assert (g + r) + x == g + (r + x);
    assert g + (y + s) == (g + y) + s;
  }

  /** The backlog of the followed block, if it is in its table. */
  function BacklogOf(h: Host): seq<nat> {
    if Present(h.sys, h.slot, h.task) then h.sys.pcbs[h.slot].value.backlog else []
  }

  ghost function Backlogs(t: seq<Host>): seq<seq<nat>> {
    seq(|t|, m requires 0 <= m < |t| => t[m].x.p.backlog)
  }

  lemma ShiftsAt(t: seq<Host>, ops: seq<Op>, m: nat)
    requires IsHostRun(t, ops) && m < |ops|
    requires Present(t[m].sys, t[m].slot, t[m].task) && Present(t[m + 1].sys, t[m + 1].slot, t[m + 1].task)
    ensures Shifts(Backlogs(t), Completions(t, ops), Removals(t, ops), m)
  {
    HostRunKeeps(t, ops, m);
    StepBacklog(t[m], ops[m]);
  }

  /** `accept` serves in order: as long as a listener is in its table, the children that its backlog held and those
      whose handshakes were completed since are the ones taken out since, followed by its backlog: none twice, none
      left out, none out of turn. */
  lemma BacklogInOrder(t: seq<Host>, ops: seq<Op>, i: nat, j: nat)
    requires IsHostRun(t, ops) && i <= j < |t|
    requires forall m: nat :: i <= m <= j ==> Present(t[m].sys, t[m].slot, t[m].task)
    ensures BacklogOf(t[i]) + Between(Completions(t, ops), i, j) == Between(Removals(t, ops), i, j) + BacklogOf(t[j])
  {
    forall m: nat | i <= m < j
      ensures Shifts(Backlogs(t), Completions(t, ops), Removals(t, ops), m)
    {
      ShiftsAt(t, ops, m);
    }
    ShiftsJoin(Backlogs(t), Completions(t, ops), Removals(t, ops), i, j);
    HostRunKeeps(t, ops, i);
    HostRunKeeps(t, ops, j);
    PresentBlock(t[i]);
    PresentBlock(t[j]);
  }

  // ---------------------------------------------------------------- bind and listen

  /** A block on the same port keeps `bind` from this endpoint: any such block if an address is given, and only one on
      the wildcard if not. */
  predicate InTheWay(other: Endpoint, local: Endpoint) {
    other.port == local.port && (local.addr != ANY || other.addr == ANY)
  }

  /** `bind` succeeds exactly on a live block in CLOSED, with a port that no live block keeps from it; then the block
      has that endpoint, and nothing else changes. */
  lemma BindSucceedsIff(s: Sys, d: nat, local: Endpoint)
    ensures Bind(s, d, local).1 <==>
      && Live(s.pcbs, d) && s.pcbs[d].value.state == Closed && local.port != 0
      && forall j: nat :: Live(s.pcbs, j) ==> !InTheWay(s.pcbs[j].value.local, local)
    ensures var t := Do(s, BindOp(d, local));
      if Bind(s, d, local).1 then OthersStay(s, t, d) && t.pcbs[d] == Some(s.pcbs[d].value.(local := local)) else t == s
  {
    SelectSpec(s.pcbs, local, WILDCARD);
  }

  /** So the order of two binds to one port matters: the wildcard after an address is granted, an address after the
      wildcard is not. */
  lemma BindOrderMatters(s: Sys, d: nat, e: nat, addr: IpAddr, port: u16)
    requires d != e && Live(s.pcbs, d) && Live(s.pcbs, e) && port != 0 && addr != ANY
    requires s.pcbs[d].value.state == s.pcbs[e].value.state == Closed
    requires forall j: nat :: Live(s.pcbs, j) ==> s.pcbs[j].value.local.port != port
    ensures Bind(s, d, Endpoint(addr, port)).1 && Bind(Bind(s, d, Endpoint(addr, port)).0, e, Endpoint(ANY, port)).1
    ensures Bind(s, d, Endpoint(ANY, port)).1 && !Bind(Bind(s, d, Endpoint(ANY, port)).0, e, Endpoint(addr, port)).1
  {
    BindSucceedsIff(s, d, Endpoint(addr, port));
    BindSucceedsIff(Bind(s, d, Endpoint(addr, port)).0, e, Endpoint(ANY, port));
    BindSucceedsIff(s, d, Endpoint(ANY, port));
    var t := Bind(s, d, Endpoint(ANY, port)).0;
    BindSucceedsIff(t, e, Endpoint(addr, port));
    assert Live(t.pcbs, d) && InTheWay(t.pcbs[d].value.local, Endpoint(addr, port));
  }

  /** `listen` succeeds exactly on a live block in CLOSED that has a port. */
  lemma ListenSucceedsIff(s: Sys, d: nat, backlogMax: nat)
    ensures ListenCall(s, d, backlogMax).1 <==>
      Live(s.pcbs, d) && s.pcbs[d].value.state == Closed && s.pcbs[d].value.local.port != 0
    ensures var t := Do(s, ListenOp(d, backlogMax));
      if ListenCall(s, d, backlogMax).1
      then OthersStay(s, t, d) && t.pcbs[d] == Some(s.pcbs[d].value.(state := Listen, backlogMax := backlogMax))
      else t == s
  {
  }

  // ---------------------------------------------------------------- open and connect

  ghost predicate Taken(pcbs: Slots, local: Endpoint, remote: Endpoint) {
    exists j: nat :: Live(pcbs, j) && Matches(pcbs[j].value, local, remote)
  }

  lemma TakenIsSelected(pcbs: Slots, local: Endpoint, remote: Endpoint)
    ensures Taken(pcbs, local, remote) <==> Select(pcbs, local, remote).Some?
  {
    SelectSpec(pcbs, local, remote);
  }

  /** The first dynamic port that no live block takes. */
  lemma {:induction false} FreePortIs(pcbs: Slots, addr: IpAddr, remote: Endpoint, port: nat)
    requires DYNAMIC_PORT_MIN <= port <= DYNAMIC_PORT_MAX + 1
    ensures match FreePort(pcbs, addr, remote, port)
      case None => forall q: u16 :: port <= q ==> Taken(pcbs, Endpoint(addr, q), remote)
      case Some(r) => port <= r && !Taken(pcbs, Endpoint(addr, r), remote)
                      && forall q: u16 :: port <= q < r ==> Taken(pcbs, Endpoint(addr, q), remote)
    decreases DYNAMIC_PORT_MAX + 1 - port
  {
    if port <= DYNAMIC_PORT_MAX {
      TakenIsSelected(pcbs, Endpoint(addr, port), remote);
      if Taken(pcbs, Endpoint(addr, port), remote) {
        FreePortIs(pcbs, addr, remote, port + 1);
      }
    }
  }

  /** The endpoint that `open` and `connect` settle on: the address given or that of the route, the port given or the
      first free dynamic one, and no live block takes it. */
  predicate Settles(local: Endpoint, route: Option<IpAddr>, source: Endpoint) {
    && (if local.addr == ANY then route == Some(source.addr) else source.addr == local.addr)
    && (if local.port == 0 then DYNAMIC_PORT_MIN <= source.port else source.port == local.port)
  }

  /** They find one exactly if there is an address, and on it the port given, or some dynamic port, is free. */
  lemma SourceIff(pcbs: Slots, local: Endpoint, remote: Endpoint, route: Option<IpAddr>)
    ensures var found := Source(pcbs, local, remote, route);
      && (found.Some? ==> Settles(local, route, found.value) && !Taken(pcbs, found.value, remote))
      && (found.None? <==> forall e: Endpoint :: Settles(local, route, e) ==> Taken(pcbs, e, remote))
  {
    if local.addr != ANY || route.Some? {
      var addr := if local.addr == ANY then route.value else local.addr;
      FreePortIs(pcbs, addr, remote, DYNAMIC_PORT_MIN);
      forall e: Endpoint | Settles(local, route, e)
        ensures Taken(pcbs, e, remote) <==> Select(pcbs, e, remote).Some?
      {
        TakenIsSelected(pcbs, e, remote);
      }
      var given := Endpoint(addr, if local.port == 0 then DYNAMIC_PORT_MIN else local.port);
      assert Settles(local, route, given);
    }
  }

  /** `connect` on a block that is bound and has no peer yet always fails, whatever the peer: the block itself is in the
      way. */
  lemma BoundConnectFails(s: Sys, d: nat, remote: Endpoint, route: Option<IpAddr>, isn: u32, delivered: bool, now: nat)
    requires Live(s.pcbs, d) && s.pcbs[d].value.local.port != 0 && s.pcbs[d].value.remote == WILDCARD
    ensures Connect(s, d, remote, route, isn, delivered, now) == (s, false)
  {
    var p := s.pcbs[d].value;
    SourceIff(s.pcbs, p.local, remote, route);
    var source := Source(s.pcbs, p.local, remote, route);
    if source.Some? {
      assert Matches(p, source.value, remote);
    }
  }

  /** A SYN of the block, from its ISS. */
  predicate IsSyn(pk: Packet, q: Pcb) {
    pk.src == q.local && pk.dst == q.remote && pk.seg.flg == SYN && pk.seg.sn == q.iss && pk.seg.data == []
  }

  /** The block waits for the answer to the SYN that it has sent. */
  ghost predicate Waiting(q: Pcb, remote: Endpoint, isn: u32, wire: set<Packet>) {
    && q.state == SynSent && q.remote == remote && q.iss == q.snd.una == isn && q.snd.nxt == Add32(isn, 1)
    && exists pk :: pk in wire && IsSyn(pk, q)
  }

  /** What an active open returns: a descriptor exactly if the table has room, an endpoint is found and the SYN leaves
      the host. Then a block that was free waits in SYN_SENT; otherwise the blocks are the same as before. */
  lemma OpenReturns(s: Sys, op: Op)
    requires op.OpenActiveOp?
    ensures var r, t := OpenActive(s, op.local, op.remote, op.route, op.isn, op.delivered, op.now).1, Do(s, op);
      && (r.Ok? <==> HasRoom(s.pcbs) && op.delivered && Source(Allocated(s).pcbs, op.local, op.remote, op.route).Some?)
      && (r.Ok? ==> Opened(s, t, op, r.value))
      && (r.Err? ==> SameBlocks(s, t))
  {
    if HasRoom(s.pcbs) {
      var d, a := FirstFree(s.pcbs, 0), Allocated(s);
      var source := Source(a.pcbs, op.local, op.remote, op.route);
      SourceIff(a.pcbs, op.local, op.remote, op.route);
      if source.Some? {
        var b := Apply(a, d, StartConnect(a.pcbs[d].value, source.value, op.remote, op.isn, op.delivered, op.now));
        if op.delivered {
          var q := b.pcbs[d].value;
          assert IsSyn(Packet(q.local, q.remote, Segment(q.iss, q.rcv.nxt, SYN, q.rcv.wnd, [])), q);
        } else {
          FreshReleased(s, b, d);
        }
      } else {
        FreshReleased(s, a, d);
      }
    }
  }

  /** The same blocks are live, and they are the same. */
  ghost predicate SameBlocks(s: Sys, t: Sys) {
    forall j: nat :: (Live(t.pcbs, j) <==> Live(s.pcbs, j)) && (Live(s.pcbs, j) ==> t.pcbs[j] == s.pcbs[j])
  }

  ghost predicate Opened(s: Sys, t: Sys, op: Op, d: nat)
    requires op.OpenActiveOp?
  {
    && Added(s, t, d)
    && Settles(op.local, op.route, t.pcbs[d].value.local)
    && Waiting(t.pcbs[d].value, op.remote, op.isn, t.wire)
  }

  /** A fresh block has no backlog, so its release frees it alone. */
  lemma FreshReleased(s: Sys, a: Sys, d: nat)
    requires d == FirstFree(s.pcbs, 0) && Live(a.pcbs, d) && a.pcbs[d].value.backlog == []
    requires |a.pcbs| >= |s.pcbs| && |a.pcbs| <= |s.pcbs| + 1 && (|a.pcbs| > |s.pcbs| ==> d == |s.pcbs|)
    requires forall j: nat :: j < |s.pcbs| && j != d ==> a.pcbs[j] == s.pcbs[j]
    ensures SameBlocks(s, Released(a, d))
  {
    ReachCloses(a.pcbs, d);
    assert ClosedUnder(a.pcbs, {d});
    assert Reach(a.pcbs, d) == {d};
  }

  /** A passive open returns a descriptor exactly if the table has room and nothing takes the endpoints; then a block
      that was free listens on them. Otherwise the blocks are the same as before. */
  lemma PassiveOpenReturns(s: Sys, local: Endpoint, remote: Endpoint)
    ensures var r, t := OpenPassive(s, local, remote).1, OpenPassive(s, local, remote).0;
      && (r.Ok? <==> HasRoom(s.pcbs) && !Taken(Allocated(s).pcbs, local, remote))
      && (r.Ok? ==> Added(s, t, r.value) && Listens(t.pcbs[r.value].value, local, remote))
      && (r.Err? ==> SameBlocks(s, t))
  {
    if HasRoom(s.pcbs) {
      TakenIsSelected(Allocated(s).pcbs, local, remote);
      if Taken(Allocated(s).pcbs, local, remote) {
        FreshReleased(s, Allocated(s), FirstFree(s.pcbs, 0));
      } else {
        PassivelyOpened(s, local, remote);
      }
    }
  }

  /** The block listens for these endpoints, and takes the connection itself. */
  predicate Listens(q: Pcb, local: Endpoint, remote: Endpoint) {
    q.state == Listen && q.mode == Rfc && q.local == local && q.remote == remote
  }

  lemma PassivelyOpened(s: Sys, local: Endpoint, remote: Endpoint)
    requires HasRoom(s.pcbs)
    ensures var a, d := Allocated(s), FirstFree(s.pcbs, 0);
      var t := Apply(a, d, Step(a.pcbs[d].value, UserListen(local, remote, 0)));
      Added(s, t, d) && Listens(t.pcbs[d].value, local, remote)
  {
  }

  /** `socket` returns a fresh block in socket mode exactly if the table has room. */
  lemma SocketReturns(s: Sys)
    requires ValidSys(s)
    ensures var r, t := SocketCall(s).1, SocketCall(s).0;
      && (r.Ok? <==> exists j: nat :: j < 16 && !Live(s.pcbs, j))
      && (r.Ok? ==> Added(s, t, r.value) && t.pcbs[r.value].value == EmptyPcb(|s.gens|).(mode := Socket))
      && (r.Err? ==> t == s)
  {
    if HasRoom(s.pcbs) {
      assert !Live(s.pcbs, FirstFree(s.pcbs, 0));
    } else {
      assert forall j: nat :: j < |s.pcbs| ==> Live(s.pcbs, j);
    }
  }

  /** Block `d` is new, and all that were there are as they were. */
  ghost predicate Added(s: Sys, t: Sys, d: nat) {
    !Live(s.pcbs, d) && Live(t.pcbs, d)
    && forall j: nat :: Live(s.pcbs, j) ==> Live(t.pcbs, j) && t.pcbs[j] == s.pcbs[j]
  }

  /** A wait that fails leaves the block of `connect` closed, and that of `open` freed. */
  lemma AbandonDoes(s: Sys, d: nat, gone: bool)
    requires Live(s.pcbs, d)
    ensures var t := Do(s, AbandonOp(d, gone));
      if gone then !Live(t.pcbs, d) else OthersStay(s, t, d) && t.pcbs[d] == Some(s.pcbs[d].value.(state := Closed))
  {
    if gone {
      ReachCloses(Apply(s, d, Step(s.pcbs[d].value, Abort)).pcbs, d);
    }
  }

  // ---------------------------------------------------------------- close

  /** `close` sends a FIN and moves on, or frees the block, or fails and changes nothing, exactly by the state. */
  lemma CloseDoes(s: Sys, d: nat, now: nat)
    requires ValidSys(s) && Live(s.pcbs, d)
    ensures var p, t := s.pcbs[d].value, Do(s, CloseOp(d, now));
      && (p.state in {Listen, SynSent} ==> !Live(t.pcbs, d))
      && (p.state in {SynReceived, Established, CloseWait} ==>
            && Live(t.pcbs, d) && OthersStay(s, t, d) && CloseCall(s, d, now).1
            && t.pcbs[d].value.state == (if p.state == CloseWait then LastAck else FinWait1)
            && t.pcbs[d].value.snd.nxt == Add32(p.snd.nxt, 1)
            && exists pk :: pk in t.wire && X.IsFin(pk, p))
      && (p.state !in {Listen, SynSent, SynReceived, Established, CloseWait} ==> t == s && !CloseCall(s, d, now).1)
  {
    var p := s.pcbs[d].value;
    if p.state in {Listen, SynSent} {
      ReachCloses(Reacted(s, d, Close(p, now)).pcbs, d);
    } else {
      assert X.IsFin(Transmit(p, ACK_FIN, []), p);
    }
  }

  /** The backlog of `d` leads to blocks of `S` only, and nowhere back to `d`. */
  ghost predicate LeadsAway(pcbs: Slots, d: nat, S: set<nat>)
    requires Live(pcbs, d)
  {
    d !in S && ClosedUnder(pcbs, S) && forall j :: j in pcbs[d].value.backlog && Live(pcbs, j) ==> j in S
  }

  lemma ReachLeadsAway(pcbs: Slots, d: nat)
    requires Live(pcbs, d) && d !in ReachPlus(pcbs, d)
    ensures LeadsAway(pcbs, d, ReachPlus(pcbs, d))
  {
    ReachCloses(pcbs, d);
  }

  lemma AwayFromReach(pcbs: Slots, d: nat, S: set<nat>)
    requires Live(pcbs, d) && LeadsAway(pcbs, d, S)
    ensures d !in ReachPlus(pcbs, d)
  {
    assert ClosedUnder(pcbs, S + {d});
    assert forall i :: i in Reach(pcbs, d) ==> i in S + {d};
  }

  /** The close that frees a block fails exactly if its backlog leads back to the block itself. */
  lemma FreeingCloseFailsIff(s: Sys, d: nat, now: nat)
    requires Live(s.pcbs, d) && s.pcbs[d].value.state in {Listen, SynSent}
    ensures CloseCall(s, d, now).1 <==> exists S :: LeadsAway(s.pcbs, d, S)
  {
    if d !in ReachPlus(s.pcbs, d) {
      ReachLeadsAway(s.pcbs, d);
    }
    forall S | LeadsAway(s.pcbs, d, S)
      ensures d !in ReachPlus(s.pcbs, d)
    {
      AwayFromReach(s.pcbs, d, S);
    }
  }

  /** The last section of `open` and `connect` sets the segment size of a live block exactly if there is a route. */
  lemma EstablishDoes(s: Sys, d: nat, mss: Option<u16>)
    ensures Establish(s, d, mss).1 <==> Live(s.pcbs, d) && mss.Some?
    ensures var t := Do(s, EstablishOp(d, mss));
      if Establish(s, d, mss).1 then OthersStay(s, t, d) && t.pcbs[d] == Some(s.pcbs[d].value.(mss := mss.value))
      else t == s
  {
  }
}
