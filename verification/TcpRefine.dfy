/** The whole table refines the single connection: along every run of the stack, each live block is a block that some
    run of the one-connection model reaches, with its history carried along. */
module TcpRefine {
  import opened Wrappers
  import opened Words
  import opened Inet
  import opened TcpPcb
  import opened TcpTable
  import opened TcpOps
  import C = TcpConn
  import R = TcpRuns
  import W = TcpWake

  type Conn = C.Conn

  /** `c` is a history of block `p`. */
  ghost predicate HistoryOf(c: Conn, p: Pcb) {
    c.alive && c.p == p && C.Reachable(c)
  }

  /** `cs` gives the history of every live block. */
  ghost predicate Tracks(s: Sys, cs: seq<Conn>) {
    && |cs| == |s.pcbs|
    && forall i: nat :: Live(s.pcbs, i) ==> HistoryOf(cs[i], s.pcbs[i].value)
  }

  /** Every live block but `d` is tracked. */
  ghost predicate TracksBut(s: Sys, cs: seq<Conn>, d: nat) {
    && |cs| == |s.pcbs|
    && forall i: nat :: i != d && Live(s.pcbs, i) ==> HistoryOf(cs[i], s.pcbs[i].value)
  }

  // ---------------------------------------------------------------- histories along an operation

  /** Block `d` goes through `ev`, and its parent takes it into its backlog if the event says so. */
  ghost function Followed(s: Sys, cs: seq<Conn>, d: nat, ev: Event): seq<Conn>
    requires |cs| == |s.pcbs| && Live(s.pcbs, d)
  {
    var cs1 := cs[d := C.Next(cs[d], ev)];
    var parent := s.pcbs[d].value.parent;
    if Step(s.pcbs[d].value, ev).join && parent.Some? && Live(s.pcbs, parent.value)
    then cs1[parent.value := C.Next(cs1[parent.value], Push(d))]
    else cs1
  }

  /** A block born in slot `k`. */
  ghost function Placed(cs: seq<Conn>, k: nat, c: Conn): seq<Conn>
    requires k <= |cs|
  {
    if k < |cs| then cs[k := c] else cs + [c]
  }

  ghost function FollowDelivery(s: Sys, cs: seq<Conn>, seg: Segment, local: Endpoint, remote: Endpoint, isn: u32,
                                now: nat): seq<Conn>
    requires |cs| == |s.pcbs|
  {
    match Select(s.pcbs, local, remote)
    case None => cs
    case Some(d) =>
      SelectSpec(s.pcbs, local, remote);
      if !Spawns(s.pcbs[d].value, seg) then Followed(s, cs, d, Arrival(seg, local, remote, isn, now))
      else if !HasRoom(s.pcbs) then cs
      else Placed(cs, FirstFree(s.pcbs, 0), C.Born(C.Child(|s.gens|, d, seg, local, remote, isn, now)))
  }

  ghost function FollowTimer(s: Sys, cs: seq<Conn>, d: nat, now: nat): seq<Conn>
    requires |cs| == |s.pcbs|
    decreases |s.pcbs| - d
  {
    if d >= |s.pcbs| then cs
    else if s.pcbs[d].None? then FollowTimer(s, cs, d + 1, now)
    else FollowTimer(Apply(s, d, Tick(s.pcbs[d].value, now)), Followed(s, cs, d, Timer(now)), d + 1, now)
  }

  /** A fresh block goes through `ev` at once. */
  ghost function FollowOpen(s: Sys, cs: seq<Conn>, ev: Event): seq<Conn>
    requires |cs| == |s.pcbs|
  {
    if !HasRoom(s.pcbs) then cs
    else Placed(cs, FirstFree(s.pcbs, 0), C.Next(C.Born(C.Allocated(|s.gens|)), ev))
  }

  ghost function FollowAccept(s: Sys, cs: seq<Conn>, d: nat, mss: Option<u16>): seq<Conn>
    requires |cs| == |s.pcbs|
  {
    if !Live(s.pcbs, d) || s.pcbs[d].value.state != Listen || s.pcbs[d].value.backlog == [] then cs
    else
      var k := s.pcbs[d].value.backlog[0];
      var cs1 := cs[d := C.Next(cs[d], Pop)];
      if !Live(s.pcbs, k) || mss.None? then cs1 else cs1[k := C.Next(cs1[k], SetMss(mss.value))]
  }

  /** One call that works on one live block. */
  ghost function FollowCall(s: Sys, cs: seq<Conn>, d: nat, ev: Event): seq<Conn>
    requires |cs| == |s.pcbs|
  {
    if Live(s.pcbs, d) then Followed(s, cs, d, ev) else cs
  }

  /** The histories after an operation. */
  ghost function Follow(s: Sys, cs: seq<Conn>, op: Op): seq<Conn>
    requires |cs| == |s.pcbs|
  {
    match op
    case DeliverOp(seg, local, remote, isn, now) => FollowDelivery(s, cs, seg, local, remote, isn, now)
    case TimerOp(now) => FollowTimer(s, cs, 0, now)
    case OpenActiveOp(local, remote, route, isn, delivered, now) =>
      var source := Source(Allocated(s).pcbs, local, remote, route);
      FollowOpen(s, cs, UserConnect(if source.Some? then source.value else local, remote, isn, true, now))
    case OpenPassiveOp(local, remote) => FollowOpen(s, cs, UserListen(local, remote, 0))
    case ConnectOp(d, remote, route, isn, delivered, now) =>
      if !Live(s.pcbs, d) then cs
      else
        var source := Source(s.pcbs, s.pcbs[d].value.local, remote, route);
        if source.None? then cs else Followed(s, cs, d, UserConnect(source.value, remote, isn, delivered, now))
    case SocketOp => FollowOpen(s, cs, SetMode(Socket))
    case BindOp(d, local) => if Bind(s, d, local).1 then Followed(s, cs, d, UserBind(local)) else cs
    case ListenOp(d, max) =>
      if ListenCall(s, d, max).1 then
        Followed(s, cs, d, UserListen(s.pcbs[d].value.local, s.pcbs[d].value.remote, max))
      else cs
    case AcceptOp(d, mss) => FollowAccept(s, cs, d, mss)
    case CloseOp(d, now) =>
      if Live(s.pcbs, d) && CloseOk(s.pcbs[d].value.state) then Followed(s, cs, d, UserClose(now)) else cs
    case SendOp(d, rest, now) => FollowCall(s, cs, d, UserSend(rest, now))
    case ReceiveOp(d, room) => FollowCall(s, cs, d, UserReceive(room))
    case AbandonOp(d, _) => FollowCall(s, cs, d, Abort)
    case EstablishOp(d, mss) => if mss.None? then cs else FollowCall(s, cs, d, SetMss(mss.value))
  }

  /** Blocks are opened once: connect and listen hit a block that was never used, and its first SYN leaves the host. */
  ghost predicate Once(s: Sys, cs: seq<Conn>, op: Op) {
    |cs| == |s.pcbs| &&
    match op
    case ConnectOp(d, _, _, _, delivered, _) => Live(s.pcbs, d) ==> !cs[d].h.used && delivered
    case ListenOp(d, _) => Live(s.pcbs, d) ==> !cs[d].h.used
    case _ => true
  }

  // ---------------------------------------------------------------- each operation

  lemma ReleasedTracks(s: Sys, cs: seq<Conn>, d: nat)
    requires Tracks(s, cs)
    ensures Tracks(Released(s, d), cs)
  {
    assert forall i: nat :: Live(Released(s, d).pcbs, i) ==> Live(s.pcbs, i) && Released(s, d).pcbs[i] == s.pcbs[i];
  }

  /** All blocks but `d`, which is about to go, are tracked. */
  lemma ReleasedTracksRest(s: Sys, cs: seq<Conn>, d: nat)
    requires Live(s.pcbs, d) && TracksBut(s, cs, d)
    ensures Tracks(Released(s, d), cs)
  {
    ReachCloses(s.pcbs, d);
    assert forall i: nat :: Live(Released(s, d).pcbs, i) ==>
      i != d && Live(s.pcbs, i) && Released(s, d).pcbs[i] == s.pcbs[i];
  }

  /** One slot and its history change together. */
  lemma SlotTracks(s: Sys, cs: seq<Conn>, d: nat, c: Conn, t: Sys)
    requires TracksBut(s, cs, d) && d < |cs| && t.pcbs == s.pcbs[d := Some(c.p)]
    ensures TracksBut(t, cs[d := c], d)
    ensures c.alive && C.Reachable(c) ==> Tracks(t, cs[d := c])
  {
  }

  /** The parent takes `d` into its backlog. */
  lemma JoinTracks(s: Sys, cs: seq<Conn>, d: nat)
    requires Tracks(s, cs) && Live(s.pcbs, d)
    ensures
      var parent := s.pcbs[d].value.parent;
      Tracks(Joined(s, d), if parent.Some? && Live(s.pcbs, parent.value)
                           then cs[parent.value := C.Next(cs[parent.value], Push(d))] else cs)
  {
    var parent := s.pcbs[d].value.parent;
    if parent.Some? && Live(s.pcbs, parent.value) {
      C.ReachableNext(cs[parent.value], Push(d));
      SlotTracks(s, cs, parent.value, C.Next(cs[parent.value], Push(d)), Joined(s, d));
    }
  }

  lemma ApplyTracks(s: Sys, cs: seq<Conn>, d: nat, ev: Event)
    requires ValidSys(s) && Tracks(s, cs) && Live(s.pcbs, d) && C.Legal(cs[d], ev)
    requires SameIdentity(s.pcbs[d].value, Step(s.pcbs[d].value, ev).pcb)
    ensures Tracks(Apply(s, d, Step(s.pcbs[d].value, ev)), Followed(s, cs, d, ev))
  {
    var r, c := Step(s.pcbs[d].value, ev), C.Next(cs[d], ev);
    C.ReachableNext(cs[d], ev);
    SlotTracks(s, cs, d, c, Reacted(s, d, r));
    JoinOrRelease(s.pcbs[d].value, ev);
    if r.release {
      ReleasedTracksRest(Reacted(s, d, r), cs[d := c], d);
    } else if r.join {
      JoinTracks(Reacted(s, d, r), cs[d := c], d);
    }
  }

  /** A block that joins its parent's backlog is not released in the same section. */
  lemma JoinOrRelease(p: Pcb, ev: Event)
    ensures !(Step(p, ev).join && Step(p, ev).release)
  {
  }

  lemma BornTracks(s: Sys, cs: seq<Conn>, c: Conn, t: Sys)
    requires Tracks(s, cs) && HasRoom(s.pcbs) && c.alive && C.Reachable(c)
    requires t.pcbs == Allocated(s).pcbs[FirstFree(s.pcbs, 0) := Some(c.p)]
    ensures Tracks(t, Placed(cs, FirstFree(s.pcbs, 0), c))
  {
  }

  lemma ArriveIdentity(p: Pcb, seg: Segment, local: Endpoint, remote: Endpoint, isn: u32, now: nat)
    ensures SameIdentity(p, Arrive(p, seg, local, remote, isn, now).pcb)
  {
    W.ArriveOwes(p, seg, local, remote, isn, now);
  }

  lemma DeliveryTracks(s: Sys, cs: seq<Conn>, seg: Segment, local: Endpoint, remote: Endpoint, isn: u32, now: nat)
    requires ValidSys(s) && Tracks(s, cs)
    ensures Tracks(Deliver(s, seg, local, remote, isn, now), FollowDelivery(s, cs, seg, local, remote, isn, now))
  {
    SelectSpec(s.pcbs, local, remote);
    var sel := Select(s.pcbs, local, remote);
    if sel.Some? {
      var d := sel.value;
      if !Spawns(s.pcbs[d].value, seg) {
        ArriveIdentity(s.pcbs[d].value, seg, local, remote, isn, now);
        ApplyTracks(s, cs, d, Arrival(seg, local, remote, isn, now));
      } else if HasRoom(s.pcbs) {
        var b := C.Child(|s.gens|, d, seg, local, remote, isn, now);
        C.ReachableBorn(b);
        BornTracks(s, cs, C.Born(b), Deliver(s, seg, local, remote, isn, now));
      }
    }
  }

  lemma {:induction false} TimerTracks(s: Sys, cs: seq<Conn>, d: nat, now: nat)
    requires ValidSys(s) && Tracks(s, cs)
    ensures Tracks(TimerFrom(s, d, now), FollowTimer(s, cs, d, now))
    decreases |s.pcbs| - d
  {
    if d < |s.pcbs| {
      if s.pcbs[d].None? {
        TimerTracks(s, cs, d + 1, now);
      } else {
        ApplyTracks(s, cs, d, Timer(now));
        ApplyValid(s, d, Tick(s.pcbs[d].value, now));
        TimerTracks(Apply(s, d, Tick(s.pcbs[d].value, now)), Followed(s, cs, d, Timer(now)), d + 1, now);
      }
    }
  }

  /** A block that is born and goes through its first event. */
  lemma OpenTracks(s: Sys, cs: seq<Conn>, ev: Event, t: Sys)
    requires Tracks(s, cs) && HasRoom(s.pcbs) && C.Legal(C.Born(C.Allocated(|s.gens|)), ev)
    requires var r := Step(EmptyPcb(|s.gens|), ev);
      !r.release && t.pcbs == Allocated(s).pcbs[FirstFree(s.pcbs, 0) := Some(r.pcb)]
    ensures Tracks(t, FollowOpen(s, cs, ev))
  {
    var c := C.Born(C.Allocated(|s.gens|));
    C.ReachableBorn(C.Allocated(|s.gens|));
    C.ReachableNext(c, ev);
    BornTracks(s, cs, C.Next(c, ev), t);
  }

  /** A block that is born and released in the same section. */
  lemma BrieflyTracks(s: Sys, cs: seq<Conn>, c: Conn, t: Sys)
    requires Tracks(s, cs) && HasRoom(s.pcbs) && Live(t.pcbs, FirstFree(s.pcbs, 0))
    requires t.pcbs == Allocated(s).pcbs[FirstFree(s.pcbs, 0) := t.pcbs[FirstFree(s.pcbs, 0)]]
    ensures Tracks(Released(t, FirstFree(s.pcbs, 0)), Placed(cs, FirstFree(s.pcbs, 0), c))
  {
    ReleasedTracksRest(t, Placed(cs, FirstFree(s.pcbs, 0), c), FirstFree(s.pcbs, 0));
  }

  lemma OpenActiveTracks(s: Sys, cs: seq<Conn>, op: Op)
    requires Tracks(s, cs) && op.OpenActiveOp?
    ensures Tracks(Do(s, op), Follow(s, cs, op))
  {
    if HasRoom(s.pcbs) {
      var d, a := FirstFree(s.pcbs, 0), Allocated(s);
      var source := Source(a.pcbs, op.local, op.remote, op.route);
      var ev := UserConnect(if source.Some? then source.value else op.local, op.remote, op.isn, true, op.now);
      var c := C.Next(C.Born(C.Allocated(|s.gens|)), ev);
      if source.None? {
        BrieflyTracks(s, cs, c, a);
      } else {
        var b := Apply(a, d, StartConnect(a.pcbs[d].value, source.value, op.remote, op.isn, op.delivered, op.now));
        if op.delivered {
          OpenTracks(s, cs, ev, b);
        } else {
          BrieflyTracks(s, cs, c, b);
        }
      }
    }
  }

  lemma OpenPassiveTracks(s: Sys, cs: seq<Conn>, local: Endpoint, remote: Endpoint)
    requires Tracks(s, cs)
    ensures Tracks(OpenPassive(s, local, remote).0, FollowOpen(s, cs, UserListen(local, remote, 0)))
  {
    if HasRoom(s.pcbs) {
      var d, a := FirstFree(s.pcbs, 0), Allocated(s);
      if Select(a.pcbs, local, remote).Some? {
        BrieflyTracks(s, cs, C.Next(C.Born(C.Allocated(|s.gens|)), UserListen(local, remote, 0)), a);
      } else {
        OpenTracks(s, cs, UserListen(local, remote, 0), OpenPassive(s, local, remote).0);
      }
    }
  }

  lemma SocketTracks(s: Sys, cs: seq<Conn>)
    requires Tracks(s, cs)
    ensures Tracks(SocketCall(s).0, FollowOpen(s, cs, SetMode(Socket)))
  {
    if HasRoom(s.pcbs) {
      OpenTracks(s, cs, SetMode(Socket), SocketCall(s).0);
    }
  }

  lemma AcceptTracks(s: Sys, cs: seq<Conn>, d: nat, mss: Option<u16>)
    requires Tracks(s, cs)
    ensures Tracks(Accept(s, d, mss).0, FollowAccept(s, cs, d, mss))
  {
    if Live(s.pcbs, d) && s.pcbs[d].value.state == Listen && s.pcbs[d].value.backlog != [] {
      var p := s.pcbs[d].value;
      var k := p.backlog[0];
      var s1 := s.(pcbs := s.pcbs[d := Some(p.(backlog := p.backlog[1..]))]);
      var cs1 := cs[d := C.Next(cs[d], Pop)];
      C.ReachableNext(cs[d], Pop);
      SlotTracks(s, cs, d, C.Next(cs[d], Pop), s1);
      if Live(s.pcbs, k) && mss.Some? {
        MssTracks(s1, cs1, k, mss.value);
      }
    }
  }

  lemma MssTracks(s: Sys, cs: seq<Conn>, k: nat, mss: u16)
    requires Tracks(s, cs) && Live(s.pcbs, k)
    ensures Tracks(s.(pcbs := s.pcbs[k := Some(s.pcbs[k].value.(mss := mss))]), cs[k := C.Next(cs[k], SetMss(mss))])
  {
    C.ReachableNext(cs[k], SetMss(mss));
    SlotTracks(s, cs, k, C.Next(cs[k], SetMss(mss)), s.(pcbs := s.pcbs[k := Some(s.pcbs[k].value.(mss := mss))]));
  }

  lemma ConnectTracks(s: Sys, cs: seq<Conn>, op: Op)
    requires ValidSys(s) && Tracks(s, cs) && Once(s, cs, op) && op.ConnectOp?
    ensures Tracks(Do(s, op), Follow(s, cs, op))
  {
    var d := op.desc;
    if Live(s.pcbs, d) {
      var source := Source(s.pcbs, s.pcbs[d].value.local, op.remote, op.route);
      if source.Some? {
        ApplyTracks(s, cs, d, UserConnect(source.value, op.remote, op.isn, op.delivered, op.now));
      }
    }
  }

  lemma SetupTracks(s: Sys, cs: seq<Conn>, op: Op)
    requires ValidSys(s) && Tracks(s, cs) && Once(s, cs, op) && (op.BindOp? || op.ListenOp?)
    ensures Tracks(Do(s, op), Follow(s, cs, op))
  {
    var d := op.desc;
    if Live(s.pcbs, d) {
      var ev := if op.BindOp? then UserBind(op.local)
                else UserListen(s.pcbs[d].value.local, s.pcbs[d].value.remote, op.backlogMax);
      ApplyTracks(s, cs, d, ev);
    }
  }

  /** The calls that hand one block one event. */
  lemma CallTracks(s: Sys, cs: seq<Conn>, op: Op)
    requires ValidSys(s) && Tracks(s, cs) && (op.SendOp? || op.ReceiveOp? || op.EstablishOp?)
    ensures Tracks(Do(s, op), Follow(s, cs, op))
  {
    if Live(s.pcbs, op.desc) && !(op.EstablishOp? && op.path.None?) {
      var ev := if op.SendOp? then UserSend(op.rest, op.now) else if op.ReceiveOp? then UserReceive(op.room)
                else SetMss(op.path.value);
      ApplyTracks(s, cs, op.desc, ev);
    }
  }

  lemma CloseTracks(s: Sys, cs: seq<Conn>, d: nat, now: nat)
    requires ValidSys(s) && Tracks(s, cs)
    ensures Tracks(CloseCall(s, d, now).0, Follow(s, cs, CloseOp(d, now)))
  {
    if Live(s.pcbs, d) && CloseOk(s.pcbs[d].value.state) {
      ApplyTracks(s, cs, d, UserClose(now));
    }
  }

  lemma AbandonTracks(s: Sys, cs: seq<Conn>, d: nat, gone: bool)
    requires ValidSys(s) && Tracks(s, cs)
    ensures Tracks(Abandon(s, d, gone), FollowCall(s, cs, d, Abort))
  {
    if Live(s.pcbs, d) {
      ApplyTracks(s, cs, d, Abort);
      ReleasedTracks(Apply(s, d, Step(s.pcbs[d].value, Abort)), FollowCall(s, cs, d, Abort), d);
    }
  }

  /** Every operation on the table takes each block through events of its own, legal ones. */
  lemma OpTracks(s: Sys, cs: seq<Conn>, op: Op)
    requires ValidSys(s) && Tracks(s, cs) && Once(s, cs, op)
    ensures Tracks(Do(s, op), Follow(s, cs, op))
  {
    match op
    case DeliverOp(seg, local, remote, isn, now) => DeliveryTracks(s, cs, seg, local, remote, isn, now);
    case TimerOp(now) => TimerTracks(s, cs, 0, now);
    case OpenActiveOp(_, _, _, _, _, _) => OpenActiveTracks(s, cs, op);
    case OpenPassiveOp(local, remote) => OpenPassiveTracks(s, cs, local, remote);
    case SocketOp => SocketTracks(s, cs);
    case AcceptOp(d, mss) => AcceptTracks(s, cs, d, mss);
    case ConnectOp(_, _, _, _, _, _) => ConnectTracks(s, cs, op);
    case BindOp(_, _) => SetupTracks(s, cs, op);
    case ListenOp(_, _) => SetupTracks(s, cs, op);
    case CloseOp(d, now) => CloseTracks(s, cs, d, now);
    case AbandonOp(d, gone) => AbandonTracks(s, cs, d, gone);
    case _ => CallTracks(s, cs, op);
  }

  // ---------------------------------------------------------------- over whole runs

  /** A run of the stack that opens each block once, with the histories `cs[i]` of the blocks of `t[i]`. */
  ghost predicate IsTrackedRun(t: seq<Sys>, cs: seq<seq<Conn>>, ops: seq<Op>) {
    && |t| == |cs| == |ops| + 1
    && t[0] == Sys([], [], {}) && cs[0] == []
    && forall i {:trigger ops[i]} :: 0 <= i < |ops| ==>
         Once(t[i], cs[i], ops[i]) && t[i + 1] == Do(t[i], ops[i]) && cs[i + 1] == Follow(t[i], cs[i], ops[i])
  }

  /** The table refines the connection: at every moment of every run, each live block is one that a run of the
      one-connection model reaches, with the history that the operations on the table gave it. */
  lemma {:induction false} TableRefinesConnection(t: seq<Sys>, cs: seq<seq<Conn>>, ops: seq<Op>, i: nat)
    requires IsTrackedRun(t, cs, ops) && i < |t|
    ensures ValidSys(t[i]) && Tracks(t[i], cs[i])
  {
    if i > 0 {
      TableRefinesConnection(t, cs, ops, i - 1);
      OpTracks(t[i - 1], cs[i - 1], ops[i - 1]);
      W.OpWakes(t[i - 1], ops[i - 1]);
    }
  }

  /** So what every run of one connection keeps holds of every live block of every table. */
  lemma TableKeepsInvariant(t: seq<Sys>, cs: seq<seq<Conn>>, ops: seq<Op>, i: nat, d: nat)
    requires IsTrackedRun(t, cs, ops) && i < |t| && Live(t[i].pcbs, d)
    ensures |cs[i]| == |t[i].pcbs| && C.Inv(t[i].pcbs[d].value, cs[i][d].h)
  {
    TableRefinesConnection(t, cs, ops, i);
    R.ReachableKeeps(cs[i][d]);
  }
}
