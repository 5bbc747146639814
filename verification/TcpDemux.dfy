/** Demultiplexing: over every run of the stack, a segment for a connection reaches that connection. */
module TcpDemux {
  import opened Wrappers
  import opened Words
  import opened Inet
  import opened TcpPcb
  import opened TcpTable
  import opened TcpOps

  predicate Active(p: Pcb) {
    p.state != Closed && p.state != Listen
  }

  /** One segment could be taken for both. */
  predicate Clash(p: Pcb, q: Pcb) {
    p.local.port == q.local.port && (p.remote == q.remote || p.remote == WILDCARD || q.remote == WILDCARD)
  }

  predicate ActiveAt(pcbs: Slots, i: nat) {
    Live(pcbs, i) && Active(pcbs[i].value)
  }

  ghost predicate NoClash(pcbs: Slots) {
    forall i: nat, j: nat ::
      ActiveAt(pcbs, i) && ActiveAt(pcbs, j) && i != j ==> !Clash(pcbs[i].value, pcbs[j].value)
  }

  /** Addresses on segments and interfaces are not 0.0.0.0. */
  predicate Sane(op: Op) {
    match op
    case DeliverOp(_, local, remote, _, _) => local.addr != ANY && remote.addr != ANY
    case OpenActiveOp(_, _, route, _, _, _) => route != Some(ANY)
    case ConnectOp(_, _, route, _, _, _) => route != Some(ANY)
    case _ => true
  }

  // ---------------------------------------------------------------- changes that cannot create a clash

  /** A block that is active afterwards was active before, with the same endpoints. */
  predicate TameBlock(p: Pcb, q: Pcb) {
    Active(q) ==> Active(p) && q.local == p.local && q.remote == p.remote
  }

  ghost predicate Tame(p: Slots, q: Slots) {
    forall i: nat :: Live(q, i) && Active(q[i].value) ==> Live(p, i) && TameBlock(p[i].value, q[i].value)
  }

  lemma TameKeeps(p: Slots, q: Slots)
    requires NoClash(p) && Tame(p, q)
    ensures NoClash(q)
  {
  }

  lemma TameTransitive(p: Slots, q: Slots, r: Slots)
    requires Tame(p, q) && Tame(q, r)
    ensures Tame(p, r)
  {
  }

  lemma ReleasedTame(s: Sys, d: nat)
    ensures Tame(s.pcbs, Released(s, d).pcbs)
  {
  }

  lemma ApplyTame(s: Sys, d: nat, r: Reaction)
    requires Live(s.pcbs, d) && TameBlock(s.pcbs[d].value, r.pcb)
    ensures Tame(s.pcbs, Apply(s, d, r).pcbs)
  {
    var s1 := Reacted(s, d, r);
    var s2 := if r.join then Joined(s1, d) else s1;
    assert Tame(s.pcbs, s1.pcbs);
    assert Tame(s1.pcbs, s2.pcbs);
    TameTransitive(s.pcbs, s1.pcbs, s2.pcbs);
    ReleasedTame(s2, d);
    TameTransitive(s.pcbs, s2.pcbs, Apply(s, d, r).pcbs);
  }

  lemma AllocatedTame(s: Sys)
    ensures Tame(s.pcbs, Allocated(s).pcbs)
  {
  }

  // ---------------------------------------------------------------- blocks that become active

  /** Block `x` may become active in slot `d`: no other active block could be taken for it. */
  ghost predicate Claimed(pcbs: Slots, d: nat, x: Pcb) {
    forall i: nat :: Live(pcbs, i) && i != d && Active(pcbs[i].value) ==> !Clash(x, pcbs[i].value)
  }

  lemma ClaimKeeps(pcbs: Slots, d: nat, x: Pcb)
    requires NoClash(pcbs) && d < |pcbs| && Claimed(pcbs, d, x)
    ensures NoClash(pcbs[d := Some(x)])
  {
  }

  /** No active block matches, so an active block with these endpoints clashes with none. */
  lemma UnmatchedIsClaimed(pcbs: Slots, d: nat, x: Pcb)
    requires x.local.addr != ANY
    requires forall i: nat :: Live(pcbs, i) && Active(pcbs[i].value) ==> !Matches(pcbs[i].value, x.local, x.remote)
    ensures Claimed(pcbs, d, x)
  {
  }

  // ---------------------------------------------------------------- every operation

  lemma AckTame(p: Pcb, seg: Segment, local: Endpoint, remote: Endpoint, now: nat)
    ensures var q := AckStage(p, seg, local, remote, now).pcb; q.local == p.local && q.remote == p.remote
  {
  }

  lemma AfterAckTame(a: Stage, seg: Segment, now: nat)
    ensures var q := AfterAck(a, seg, now).pcb; q.local == a.pcb.local && q.remote == a.pcb.remote
  {
    var t := TextStage(a.pcb, seg);
    assert t.pcb.local == a.pcb.local && t.pcb.remote == a.pcb.remote;
  }

  lemma ArriveTame(p: Pcb, seg: Segment, local: Endpoint, remote: Endpoint, isn: u32, now: nat)
    requires p.state != Listen
    ensures TameBlock(p, Arrive(p, seg, local, remote, isn, now).pcb)
  {
    if p.state != Closed && p.state != SynSent {
      AckTame(p, seg, local, remote, now);
      AfterAckTame(AckStage(p, seg, local, remote, now), seg, now);
      assert Arrive(p, seg, local, remote, isn, now) == OnSynchronized(p, seg, local, remote, now);
    }
  }

  lemma DeliverKeeps(s: Sys, seg: Segment, local: Endpoint, remote: Endpoint, isn: u32, now: nat)
    requires NoClash(s.pcbs) && local.addr != ANY && remote.addr != ANY
    ensures NoClash(Deliver(s, seg, local, remote, isn, now).pcbs)
  {
    SelectSpec(s.pcbs, local, remote);
    var sel := Select(s.pcbs, local, remote);
    if sel.Some? {
      var d := sel.value;
      var p := s.pcbs[d].value;
      if p.state != Listen {
        ArriveTame(p, seg, local, remote, isn, now);
        ApplyTame(s, d, Arrive(p, seg, local, remote, isn, now));
        TameKeeps(s.pcbs, Deliver(s, seg, local, remote, isn, now).pcbs);
      } else if Spawns(p, seg) {
        if HasRoom(s.pcbs) {
          var a, k := Allocated(s), FirstFree(s.pcbs, 0);
          AllocatedTame(s);
          TameKeeps(s.pcbs, a.pcbs);
          var x := TakeSyn(a.pcbs[k].value.(parent := Some(d)), seg, local, remote, isn, now);
          UnmatchedIsClaimed(a.pcbs, k, x);
          ClaimKeeps(a.pcbs, k, x);
        }
      } else {
        var r := Arrive(p, seg, local, remote, isn, now);
        if Active(r.pcb) {
          UnmatchedIsClaimed(s.pcbs, d, r.pcb);
        }
        ClaimKeepsIfActive(s.pcbs, d, r.pcb);
      }
    }
  }

  lemma ClaimKeepsIfActive(pcbs: Slots, d: nat, x: Pcb)
    requires NoClash(pcbs) && d < |pcbs| && (Active(x) ==> Claimed(pcbs, d, x))
    ensures NoClash(pcbs[d := Some(x)])
  {
  }

  lemma {:induction false} TimerKeeps(s: Sys, d: nat, now: nat)
    requires NoClash(s.pcbs)
    ensures NoClash(TimerFrom(s, d, now).pcbs)
    decreases |s.pcbs| - d
  {
    if d < |s.pcbs| {
      if s.pcbs[d].None? {
        TimerKeeps(s, d + 1, now);
      } else {
        ApplyTame(s, d, Tick(s.pcbs[d].value, now));
        TameKeeps(s.pcbs, Apply(s, d, Tick(s.pcbs[d].value, now)).pcbs);
        TimerKeeps(Apply(s, d, Tick(s.pcbs[d].value, now)), d + 1, now);
      }
    }
  }

  /** `open` and `connect` settle on an endpoint that clashes with nothing. */
  lemma ConnectKeeps(s: Sys, d: nat, local: Endpoint, remote: Endpoint, route: Option<IpAddr>, isn: u32,
                     delivered: bool, now: nat)
    requires NoClash(s.pcbs) && Live(s.pcbs, d) && route != Some(ANY) && Source(s.pcbs, local, remote, route).Some?
    ensures var source := Source(s.pcbs, local, remote, route).value;
            NoClash(Apply(s, d, StartConnect(s.pcbs[d].value, source, remote, isn, delivered, now)).pcbs)
  {
    var source := Source(s.pcbs, local, remote, route).value;
    SelectSpec(s.pcbs, source, remote);
    var x := StartConnect(s.pcbs[d].value, source, remote, isn, delivered, now).pcb;
    UnmatchedIsClaimed(s.pcbs, d, x);
    ClaimKeepsIfActive(s.pcbs, d, x);
  }

  lemma OpenActiveKeeps(s: Sys, op: Op)
    requires NoClash(s.pcbs) && op.OpenActiveOp? && Sane(op)
    ensures NoClash(Do(s, op).pcbs)
  {
    if HasRoom(s.pcbs) {
      var a, d := Allocated(s), FirstFree(s.pcbs, 0);
      AllocatedTame(s);
      TameKeeps(s.pcbs, a.pcbs);
      if Source(a.pcbs, op.local, op.remote, op.route).None? {
        ReleasedTame(a, d);
        TameKeeps(a.pcbs, Released(a, d).pcbs);
      } else {
        ConnectKeeps(a, d, op.local, op.remote, op.route, op.isn, op.delivered, op.now);
        var source := Source(a.pcbs, op.local, op.remote, op.route).value;
        var b := Apply(a, d, StartConnect(a.pcbs[d].value, source, op.remote, op.isn, op.delivered, op.now));
        ReleasedTame(b, d);
        TameKeeps(b.pcbs, Released(b, d).pcbs);
      }
    }
  }

  lemma OpenPassiveKeeps(s: Sys, local: Endpoint, remote: Endpoint)
    requires NoClash(s.pcbs)
    ensures NoClash(OpenPassive(s, local, remote).0.pcbs)
  {
    if HasRoom(s.pcbs) {
      var a, d := Allocated(s), FirstFree(s.pcbs, 0);
      AllocatedTame(s);
      TameKeeps(s.pcbs, a.pcbs);
      ReleasedTame(a, d);
      TameKeeps(a.pcbs, Released(a, d).pcbs);
      ApplyTame(a, d, Step(a.pcbs[d].value, UserListen(local, remote, 0)));
      TameKeeps(a.pcbs, OpenPassive(s, local, remote).0.pcbs);
    }
  }

  /** The calls that touch one live block and leave its endpoints, or only sit on a closed one. */
  lemma PlainTame(s: Sys, op: Op)
    requires op.BindOp? || op.ListenOp?
    ensures Tame(s.pcbs, Do(s, op).pcbs)
  {
  }

  lemma SocketTame(s: Sys)
    ensures Tame(s.pcbs, SocketCall(s).0.pcbs)
  {
  }

  lemma AcceptTame(s: Sys, d: nat, mss: Option<u16>)
    ensures Tame(s.pcbs, Accept(s, d, mss).0.pcbs)
  {
  }

  lemma CloseTame(s: Sys, d: nat, now: nat)
    ensures Tame(s.pcbs, CloseCall(s, d, now).0.pcbs)
  {
    if Live(s.pcbs, d) {
      ApplyTame(s, d, Close(s.pcbs[d].value, now));
    }
  }

  lemma BlockTame(s: Sys, op: Op)
    requires op.SendOp? || op.ReceiveOp? || op.EstablishOp?
    ensures Tame(s.pcbs, Do(s, op).pcbs)
  {
    if Live(s.pcbs, op.desc) && !(op.EstablishOp? && op.path.None?) {
      var p := s.pcbs[op.desc].value;
      var r := if op.SendOp? then Send(p, op.rest, op.now) else if op.ReceiveOp? then Receive(p, op.room)
               else Step(p, SetMss(op.path.value));
      assert TameBlock(p, r.pcb);
      ApplyTame(s, op.desc, r);
    }
  }

  lemma AbandonTame(s: Sys, d: nat, gone: bool)
    ensures Tame(s.pcbs, Abandon(s, d, gone).pcbs)
  {
    if Live(s.pcbs, d) {
      var s1 := Apply(s, d, Step(s.pcbs[d].value, Abort));
      ApplyTame(s, d, Step(s.pcbs[d].value, Abort));
      ReleasedTame(s1, d);
      TameTransitive(s.pcbs, s1.pcbs, Released(s1, d).pcbs);
    }
  }

  /** No operation lets two active blocks share their local port and remote endpoint. */
  lemma OpKeeps(s: Sys, op: Op)
    requires NoClash(s.pcbs) && Sane(op)
    ensures NoClash(Do(s, op).pcbs)
  {
    match op
    case DeliverOp(seg, local, remote, isn, now) => DeliverKeeps(s, seg, local, remote, isn, now);
    case TimerOp(now) => TimerKeeps(s, 0, now);
    case OpenActiveOp(_, _, _, _, _, _) => OpenActiveKeeps(s, op);
    case OpenPassiveOp(local, remote) => OpenPassiveKeeps(s, local, remote);
    case ConnectOp(d, remote, route, isn, delivered, now) =>
      if Live(s.pcbs, d) && Source(s.pcbs, s.pcbs[d].value.local, remote, route).Some? {
        ConnectKeeps(s, d, s.pcbs[d].value.local, remote, route, isn, delivered, now);
      }
    case AbandonOp(d, gone) =>
      AbandonTame(s, d, gone);
      TameKeeps(s.pcbs, Do(s, op).pcbs);
    case SocketOp => SocketTame(s); TameKeeps(s.pcbs, Do(s, op).pcbs);
    case BindOp(_, _) => PlainTame(s, op); TameKeeps(s.pcbs, Do(s, op).pcbs);
    case ListenOp(_, _) => PlainTame(s, op); TameKeeps(s.pcbs, Do(s, op).pcbs);
    case AcceptOp(d, mss) => AcceptTame(s, d, mss); TameKeeps(s.pcbs, Do(s, op).pcbs);
    case CloseOp(d, now) => CloseTame(s, d, now); TameKeeps(s.pcbs, Do(s, op).pcbs);
    case _ => BlockTame(s, op); TameKeeps(s.pcbs, Do(s, op).pcbs);
  }

  // ---------------------------------------------------------------- over whole runs

  /** `t` lists the stack before, between and after the operations, starting empty. */
  ghost predicate IsStackRun(t: seq<Sys>, ops: seq<Op>) {
    && |t| == |ops| + 1
    && t[0] == Sys([], [], {})
    && forall i {:trigger ops[i]} :: 0 <= i < |ops| ==> Sane(ops[i]) && t[i + 1] == Do(t[i], ops[i])
  }

  lemma {:induction false} RunNoClash(t: seq<Sys>, ops: seq<Op>, i: nat)
    requires IsStackRun(t, ops) && i < |t|
    ensures NoClash(t[i].pcbs)
  {
    if i > 0 {
      RunNoClash(t, ops, i - 1);
      OpKeeps(t[i - 1], ops[i - 1]);
    }
  }

  /** Demultiplexing: in every reachable table, a segment for an active connection selects that connection, never a
      listener and never another connection, exactly unless a closed block in an earlier slot matches it too. */
  lemma SegmentReachesItsConnection(t: seq<Sys>, ops: seq<Op>, i: nat, d: nat, local: Endpoint, remote: Endpoint)
    requires IsStackRun(t, ops) && i < |t| && local.addr != ANY && remote.addr != ANY
    requires Live(t[i].pcbs, d) && Active(t[i].pcbs[d].value)
    requires t[i].pcbs[d].value.local.port == local.port && t[i].pcbs[d].value.remote == remote
    ensures Select(t[i].pcbs, local, remote) == Some(d)
      <==> (forall j: nat :: j < d && Live(t[i].pcbs, j) && t[i].pcbs[j].value.state == Closed ==>
              !Matches(t[i].pcbs[j].value, local, remote))
  {
    RunNoClash(t, ops, i);
    SelectSpec(t[i].pcbs, local, remote);
    assert Matches(t[i].pcbs[d].value, local, remote);
  }
}
