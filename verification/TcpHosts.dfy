/** Two whole stacks: on each host any operations run on any blocks of its table. One block on each is followed from its
    birth to its release. If what reaches either of them was sent by the other, or is a bare reset, both streams arrive
    as they were written. */
module TcpHosts {
  import opened Wrappers
  import opened Words
  import opened Inet
  import opened TcpPcb
  import opened TcpTable
  import opened TcpOps
  import opened TcpRefine
  import C = TcpConn
  import N = TcpStream
  import W = TcpWake
  import E = TcpEffects

  // ---------------------------------------------------------------- what an operation does to one block

  /** The events that block `i` goes through in an operation, up to its release if that is part of it. */
  ghost function EventsAt(s: Sys, op: Op, i: nat): seq<Event>
    requires Live(s.pcbs, i)
  {
    match op
    case DeliverOp(seg, local, remote, isn, now) => DeliveryAt(s, seg, local, remote, isn, now, i)
    case TimerOp(now) => [Timer(now)]
    case OpenActiveOp(_, _, _, _, _, _) => []
    case OpenPassiveOp(_, _) => []
    case SocketOp => []
    case ConnectOp(d, remote, route, isn, delivered, now) =>
      var source := Source(s.pcbs, s.pcbs[i].value.local, remote, route);
      if i != d || source.None? then [] else [UserConnect(source.value, remote, isn, delivered, now)]
    case BindOp(d, local) => if i == d && Bind(s, d, local).1 then [UserBind(local)] else []
    case ListenOp(d, max) =>
      if i == d && ListenCall(s, d, max).1 then [UserListen(s.pcbs[i].value.local, s.pcbs[i].value.remote, max)] else []
    case AcceptOp(d, mss) => AcceptAt(s, d, mss, i)
    case CloseOp(d, now) => if i == d && CloseOk(s.pcbs[i].value.state) then [UserClose(now)] else []
    case SendOp(d, rest, now) => if i == d then [UserSend(rest, now)] else []
    case ReceiveOp(d, room) => if i == d then [UserReceive(room)] else []
    case AbandonOp(d, _) => if i == d then [Abort] else []
    case EstablishOp(d, mss) => if i == d && mss.Some? then [SetMss(mss.value)] else []
  }

  ghost function DeliveryAt(s: Sys, seg: Segment, local: Endpoint, remote: Endpoint, isn: u32, now: nat, i: nat)
    : seq<Event>
    requires Live(s.pcbs, i)
  {
    match Select(s.pcbs, local, remote)
    case None => []
    case Some(d) =>
      SelectSpec(s.pcbs, local, remote);
      var p, ev := s.pcbs[d].value, Arrival(seg, local, remote, isn, now);
      if Spawns(p, seg) then []
      else if i == d then [ev]
      else if Step(p, ev).join && p.parent == Some(i) then [Push(d)]
      else []
  }

  ghost function AcceptAt(s: Sys, d: nat, mss: Option<u16>, i: nat): seq<Event>
    requires Live(s.pcbs, i)
  {
    if !Live(s.pcbs, d) || s.pcbs[d].value.state != Listen || s.pcbs[d].value.backlog == [] then []
    else
      (if i == d then [Pop] else [])
      + (if i == s.pcbs[d].value.backlog[0] && mss.Some? then [SetMss(mss.value)] else [])
  }

  ghost function Through(c: Conn, evs: seq<Event>): Conn
    decreases |evs|
  {
    if evs == [] then c else Through(C.Next(c, evs[0]), evs[1..])
  }

  ghost function SentThrough(c: Conn, evs: seq<Event>): set<Segment>
    decreases |evs|
  {
    if evs == [] then {} else N.Segments(Step(c.p, evs[0]).sent) + SentThrough(C.Next(c, evs[0]), evs[1..])
  }

  lemma ThroughOne(c: Conn, ev: Event)
    ensures Through(c, [ev]) == C.Next(c, ev) && SentThrough(c, [ev]) == N.Segments(Step(c.p, ev).sent)
  {
    assert [ev][1..] == [];
  }

  lemma ThroughTwo(c: Conn, ev: Event, fv: Event)
    ensures Through(c, [ev] + [fv]) == C.Next(C.Next(c, ev), fv)
  {
    assert ([ev] + [fv])[1..] == [fv];
    ThroughOne(C.Next(c, ev), fv);
  }

  /** The blocks of `t` were blocks of `s`, in the same slots. */
  ghost predicate NoneBorn(s: Sys, t: Sys) {
    forall i: nat :: Live(t.pcbs, i) ==> Live(s.pcbs, i) && t.pcbs[i].value.task == s.pcbs[i].value.task
  }

  lemma ReleasedNoneBorn(s: Sys, d: nat)
    ensures NoneBorn(s, Released(s, d))
  {
    assert forall i: nat :: Live(Released(s, d).pcbs, i) ==> Live(s.pcbs, i) && Released(s, d).pcbs[i] == s.pcbs[i];
  }

  lemma ApplyNoneBorn(s: Sys, d: nat, r: Reaction)
    requires Live(s.pcbs, d) && r.pcb.task == s.pcbs[d].value.task
    ensures NoneBorn(s, Apply(s, d, r))
  {
    var s1 := Reacted(s, d, r);
    var s2 := if r.join then Joined(s1, d) else s1;
    assert NoneBorn(s, s1) && NoneBorn(s1, s2);
    ReleasedNoneBorn(s2, d);
  }

  /** One slot of a timer run. */
  lemma TickAt(s: Sys, cs: seq<Conn>, d: nat, now: nat)
    requires |cs| == |s.pcbs| && Live(s.pcbs, d)
    ensures |Apply(s, d, Tick(s.pcbs[d].value, now)).pcbs| == |s.pcbs|
    ensures Followed(s, cs, d, Timer(now)) == cs[d := C.Next(cs[d], Timer(now))]
  {
  }

  lemma {:induction false} TimerNoneBorn(s: Sys, d: nat, now: nat)
    ensures NoneBorn(s, TimerFrom(s, d, now))
    decreases |s.pcbs| - d
  {
    if d < |s.pcbs| {
      if s.pcbs[d].None? {
        TimerNoneBorn(s, d + 1, now);
      } else {
        var r := Tick(s.pcbs[d].value, now);
        ApplyNoneBorn(s, d, r);
        TimerNoneBorn(Apply(s, d, r), d + 1, now);
      }
    }
  }

  /** The timer gives every block that is left exactly one timer event. */
  lemma {:induction false} TimerAt(s: Sys, cs: seq<Conn>, d: nat, now: nat, i: nat)
    requires |cs| == |s.pcbs| && Live(TimerFrom(s, d, now).pcbs, i)
    ensures i < |FollowTimer(s, cs, d, now)| && i < |cs|
    ensures FollowTimer(s, cs, d, now)[i] == if i >= d then C.Next(cs[i], Timer(now)) else cs[i]
    decreases |s.pcbs| - d
  {
    TimerNoneBorn(s, d, now);
    if d < |s.pcbs| {
      if s.pcbs[d].None? {
        TimerAt(s, cs, d + 1, now, i);
      } else {
        TickAt(s, cs, d, now);
        TimerAt(Apply(s, d, Tick(s.pcbs[d].value, now)), cs[d := C.Next(cs[d], Timer(now))], d + 1, now, i);
      }
    }
  }

  /** One event of block `d`, seen from block `i`. */
  lemma FollowedAt(s: Sys, cs: seq<Conn>, d: nat, ev: Event, i: nat)
    requires ValidSys(s) && |cs| == |s.pcbs| && Live(s.pcbs, d) && Live(s.pcbs, i)
    ensures Followed(s, cs, d, ev)[i] ==
      if i == d then C.Next(cs[i], ev)
      else if Step(s.pcbs[d].value, ev).join && s.pcbs[d].value.parent == Some(i) then C.Next(cs[i], Push(d))
      else cs[i]
  {
  }

  /** Only an arrival makes a block join its parent's backlog. */
  lemma OnlyArrivalsJoin(p: Pcb, ev: Event)
    ensures Step(p, ev).join ==> ev.Arrival?
  {
  }

  /** The histories that go with an operation are these events, for every block that survives it. */
  lemma SurvivorFollows(s: Sys, cs: seq<Conn>, op: Op, i: nat)
    requires ValidSys(s) && |cs| == |s.pcbs| && Live(s.pcbs, i) && Live(Do(s, op).pcbs, i)
    ensures i < |Follow(s, cs, op)| && Follow(s, cs, op)[i] == Through(cs[i], EventsAt(s, op, i))
  {
    match op
    case DeliverOp(seg, local, remote, isn, now) => DeliveryFollows(s, cs, seg, local, remote, isn, now, i);
    case TimerOp(now) =>
      TimerAt(s, cs, 0, now, i);
      ThroughOne(cs[i], Timer(now));
    case AcceptOp(d, mss) => AcceptFollows(s, cs, d, mss, i);
    case OpenActiveOp(_, _, _, _, _, _) => OpenFollows(s, cs, op, i);
    case OpenPassiveOp(_, _) => OpenFollows(s, cs, op, i);
    case SocketOp => OpenFollows(s, cs, op, i);
    case ConnectOp(_, _, _, _, _, _) => SetupFollows(s, cs, op, i);
    case BindOp(_, _) => SetupFollows(s, cs, op, i);
    case ListenOp(_, _) => SetupFollows(s, cs, op, i);
    case _ => CallFollows(s, cs, op, i);
  }

  lemma OpenFollows(s: Sys, cs: seq<Conn>, op: Op, i: nat)
    requires |cs| == |s.pcbs| && Live(s.pcbs, i) && (op.OpenActiveOp? || op.OpenPassiveOp? || op.SocketOp?)
    ensures i < |Follow(s, cs, op)| && Follow(s, cs, op)[i] == cs[i] && EventsAt(s, op, i) == []
  {
  }

  lemma SetupFollows(s: Sys, cs: seq<Conn>, op: Op, i: nat)
    requires ValidSys(s) && |cs| == |s.pcbs| && Live(s.pcbs, i) && (op.ConnectOp? || op.BindOp? || op.ListenOp?)
    ensures i < |Follow(s, cs, op)| && Follow(s, cs, op)[i] == Through(cs[i], EventsAt(s, op, i))
  {
    var d := op.desc;
    if Live(s.pcbs, d) && EventsAt(s, op, d) != [] {
      var ev := EventsAt(s, op, d)[0];
      assert Follow(s, cs, op) == Followed(s, cs, d, ev);
      FollowedAt(s, cs, d, ev, i);
      OnlyArrivalsJoin(s.pcbs[d].value, ev);
      ThroughOne(cs[i], ev);
    }
  }

  lemma CallFollows(s: Sys, cs: seq<Conn>, op: Op, i: nat)
    requires ValidSys(s) && |cs| == |s.pcbs| && Live(s.pcbs, i)
    requires op.CloseOp? || op.SendOp? || op.ReceiveOp? || op.AbandonOp? || op.EstablishOp?
    ensures i < |Follow(s, cs, op)| && Follow(s, cs, op)[i] == Through(cs[i], EventsAt(s, op, i))
  {
    var d := op.desc;
    if Live(s.pcbs, d) && EventsAt(s, op, d) != [] {
      var ev := EventsAt(s, op, d)[0];
      assert Follow(s, cs, op) == Followed(s, cs, d, ev);
      FollowedAt(s, cs, d, ev, i);
      OnlyArrivalsJoin(s.pcbs[d].value, ev);
      ThroughOne(cs[i], ev);
    }
  }

  lemma DeliveryFollows(s: Sys, cs: seq<Conn>, seg: Segment, local: Endpoint, remote: Endpoint, isn: u32, now: nat,
                        i: nat)
    requires ValidSys(s) && |cs| == |s.pcbs| && Live(s.pcbs, i)
    ensures var ds := FollowDelivery(s, cs, seg, local, remote, isn, now);
      i < |ds| && ds[i] == Through(cs[i], DeliveryAt(s, seg, local, remote, isn, now, i))
  {
    SelectSpec(s.pcbs, local, remote);
    var sel := Select(s.pcbs, local, remote);
    if sel.Some? && !Spawns(s.pcbs[sel.value].value, seg) {
      var d, ev := sel.value, Arrival(seg, local, remote, isn, now);
      FollowedAt(s, cs, d, ev, i);
      ThroughOne(cs[i], ev);
      ThroughOne(cs[i], Push(d));
    }
  }

  lemma AcceptFollows(s: Sys, cs: seq<Conn>, d: nat, mss: Option<u16>, i: nat)
    requires ValidSys(s) && |cs| == |s.pcbs| && Live(s.pcbs, i)
    ensures i < |FollowAccept(s, cs, d, mss)|
    ensures FollowAccept(s, cs, d, mss)[i] == Through(cs[i], AcceptAt(s, d, mss, i))
  {
    ThroughOne(cs[i], Pop);
    if mss.Some? {
      ThroughOne(cs[i], SetMss(mss.value));
      ThroughTwo(cs[i], Pop, SetMss(mss.value));
    }
  }

  // ---------------------------------------------------------------- blocks that are born

  /** How the block is born that an operation adds to the table: to a listener that takes a SYN, or fresh with its first
      event. */
  ghost function Birth(s: Sys, op: Op): N.Action {
    match op
    case DeliverOp(seg, local, remote, isn, now) =>
      var sel := Select(s.pcbs, local, remote);
      N.Spawn(|s.gens|, if sel.Some? then sel.value else 0, seg, local, remote, isn, now)
    case OpenActiveOp(local, remote, route, isn, delivered, now) =>
      var source := Source(Allocated(s).pcbs, local, remote, route);
      N.Do(UserConnect(if source.Some? then source.value else local, remote, isn, true, now))
    case OpenPassiveOp(local, remote) => N.Do(UserListen(local, remote, 0))
    case _ => N.Do(SetMode(Socket))
  }

  predicate Allocates(s: Sys, op: Op) {
    match op
    case DeliverOp(seg, local, remote, _, _) =>
      var sel := Select(s.pcbs, local, remote);
      SelectSpec(s.pcbs, local, remote);
      sel.Some? && Spawns(s.pcbs[sel.value].value, seg)
    case OpenActiveOp(_, _, _, _, _, _) => true
    case OpenPassiveOp(_, _) => true
    case SocketOp => true
    case _ => false
  }

  /** Only a listener's SYN, `open` and `socket` add a block. */
  lemma OthersNoneBorn(s: Sys, op: Op)
    requires !Allocates(s, op)
    ensures NoneBorn(s, Do(s, op))
  {
    match op
    case DeliverOp(_, _, _, _, _) => DeliveryNoneBorn(s, op);
    case TimerOp(now) => TimerNoneBorn(s, 0, now);
    case AcceptOp(d, mss) => AcceptNoneBorn(s, d, mss);
    case BindOp(_, _) =>
    case ListenOp(_, _) =>
    case AbandonOp(d, gone) => AbandonNoneBorn(s, d, gone);
    case _ => CallNoneBorn(s, op);
  }

  lemma DeliveryNoneBorn(s: Sys, op: Op)
    requires op.DeliverOp? && !Allocates(s, op)
    ensures NoneBorn(s, Do(s, op))
  {
    SelectSpec(s.pcbs, op.local, op.remote);
    var sel := Select(s.pcbs, op.local, op.remote);
    if sel.Some? {
      var p := s.pcbs[sel.value].value;
      ArriveIdentity(p, op.seg, op.local, op.remote, op.isn, op.now);
      ApplyNoneBorn(s, sel.value, Arrive(p, op.seg, op.local, op.remote, op.isn, op.now));
    }
  }

  lemma AcceptNoneBorn(s: Sys, d: nat, mss: Option<u16>)
    ensures NoneBorn(s, Accept(s, d, mss).0)
  {
  }

  lemma AbandonNoneBorn(s: Sys, d: nat, gone: bool)
    ensures NoneBorn(s, Abandon(s, d, gone))
  {
    if Live(s.pcbs, d) {
      var r := Step(s.pcbs[d].value, Abort);
      ApplyNoneBorn(s, d, r);
      ReleasedNoneBorn(Apply(s, d, r), d);
    }
  }

  lemma CallNoneBorn(s: Sys, op: Op)
    requires op.ConnectOp? || op.CloseOp? || op.SendOp? || op.ReceiveOp? || op.EstablishOp?
    ensures NoneBorn(s, Do(s, op))
  {
    var d := op.desc;
    if Live(s.pcbs, d) && EventsAt(s, op, d) != [] {
      var p, ev := s.pcbs[d].value, EventsAt(s, op, d)[0];
      CallTask(p, ev);
      assert Do(s, op) == Apply(s, d, Step(p, ev));
      ApplyNoneBorn(s, d, Step(p, ev));
    }
  }

  lemma CallTask(p: Pcb, ev: Event)
    requires !ev.Arrival?
    ensures Step(p, ev).pcb.task == p.task
  {
  }

  /** The block in slot `k` alone is new in `t`, with the next task. */
  ghost predicate OnlyBorn(s: Sys, t: Sys, k: nat) {
    forall i: nat :: Live(t.pcbs, i) ==>
      if i == k then t.pcbs[i].value.task == |s.gens|
      else Live(s.pcbs, i) && t.pcbs[i].value.task == s.pcbs[i].value.task
  }

  /** An operation that adds a block puts it in the first free slot. */
  lemma AllocatesBorn(s: Sys, op: Op)
    requires Allocates(s, op)
    ensures if HasRoom(s.pcbs) then OnlyBorn(s, Do(s, op), FirstFree(s.pcbs, 0)) else Do(s, op).pcbs == s.pcbs
  {
    if HasRoom(s.pcbs) {
      match op
      case DeliverOp(_, _, _, _, _) =>
      case OpenActiveOp(_, _, _, _, _, _) => OpenActiveBorn(s, op);
      case OpenPassiveOp(local, remote) => OpenPassiveBorn(s, local, remote);
      case SocketOp =>
    }
  }

  lemma OpenActiveBorn(s: Sys, op: Op)
    requires op.OpenActiveOp? && HasRoom(s.pcbs)
    ensures OnlyBorn(s, Do(s, op), FirstFree(s.pcbs, 0))
  {
    var a, k := Allocated(s), FirstFree(s.pcbs, 0);
    assert OnlyBorn(s, a, k);
    var source := Source(a.pcbs, op.local, op.remote, op.route);
    if source.Some? {
      var r := StartConnect(a.pcbs[k].value, source.value, op.remote, op.isn, op.delivered, op.now);
      ApplyNoneBorn(a, k, r);
      ReleasedNoneBorn(Apply(a, k, r), k);
    } else {
      ReleasedNoneBorn(a, k);
    }
  }

  lemma OpenPassiveBorn(s: Sys, local: Endpoint, remote: Endpoint)
    requires HasRoom(s.pcbs)
    ensures OnlyBorn(s, OpenPassive(s, local, remote).0, FirstFree(s.pcbs, 0))
  {
    var a, k := Allocated(s), FirstFree(s.pcbs, 0);
    assert OnlyBorn(s, a, k);
    ReleasedNoneBorn(a, k);
    ApplyNoneBorn(a, k, Step(a.pcbs[k].value, UserListen(local, remote, 0)));
  }

  /** A block that stays in its slot keeps its task. */
  lemma SurvivorTask(s: Sys, op: Op, i: nat)
    requires Live(s.pcbs, i) && Live(Do(s, op).pcbs, i)
    ensures Do(s, op).pcbs[i].value.task == s.pcbs[i].value.task
  {
    if Allocates(s, op) {
      AllocatesBorn(s, op);
    } else {
      OthersNoneBorn(s, op);
    }
  }

  /** A block that an operation did not find in its slot was born in it, with the next task. */
  lemma NewbornFollows(s: Sys, cs: seq<Conn>, op: Op, i: nat)
    requires |cs| == |s.pcbs| && !Live(s.pcbs, i) && Live(Do(s, op).pcbs, i)
    ensures Do(s, op).pcbs[i].value.task == |s.gens|
    ensures i < |Follow(s, cs, op)|
    ensures Follow(s, cs, op)[i] == N.Acted(C.Born(C.Allocated(|s.gens|)), Birth(s, op))
    ensures op.DeliverOp? ==> op.seg.flg.syn && !op.seg.flg.ack && !op.seg.flg.rst
  {
    if Allocates(s, op) {
      AllocatesBorn(s, op);
    } else {
      OthersNoneBorn(s, op);
    }
  }

  // ---------------------------------------------------------------- one followed block on a host

  /** A host: its stack, the histories of its blocks, and the block that is followed, which its slot and its task tell
      from all others, since tasks are never used again. `x` is its history, also before its birth and after its
      release, and `sent` is what it has sent. */
  datatype Host = Host(sys: Sys, cs: seq<Conn>, slot: nat, task: nat, x: Conn, sent: set<Segment>)

  predicate Present(s: Sys, slot: nat, task: nat) {
    Live(s.pcbs, slot) && s.pcbs[slot].value.task == task
  }

  /** The host after an operation. The operation that releases the block is its last event. */
  ghost function HostStep(h: Host, op: Op): Host
    requires |h.cs| == |h.sys.pcbs|
  {
    var s, cs := Do(h.sys, op), Follow(h.sys, h.cs, op);
    var stays := Present(s, h.slot, h.task);
    if Present(h.sys, h.slot, h.task) then
      var evs := EventsAt(h.sys, op, h.slot);
      Host(s, cs, h.slot, h.task, Through(h.x, evs).(alive := stays), h.sent + SentThrough(h.x, evs))
    else if stays then
      var act := Birth(h.sys, op);
      Host(s, cs, h.slot, h.task, N.Acted(h.x, act), h.sent + N.Sent(h.x, act))
    else
      h.(sys := s, cs := cs)
  }

  /** What is delivered to the followed block, or gives birth to it, was sent by the peer's block or is a bare reset.
      Other blocks may be handed anything. */
  ghost predicate FromPeer(h: Host, op: Op, incoming: set<Segment>) {
    op.DeliverOp? && Reaches(h, op) ==> op.seg in incoming || E.BareReset(op.seg)
  }

  ghost predicate Reaches(h: Host, op: Op)
    requires op.DeliverOp?
  {
    if Present(h.sys, h.slot, h.task) then Select(h.sys.pcbs, op.local, op.remote) == Some(h.slot)
    else Present(Do(h.sys, op), h.slot, h.task)
  }

  /** The followed block is in the table with the history `x`, or was not born yet, or is gone for good. */
  ghost predicate HostInv(h: Host) {
    && ValidSys(h.sys)
    && Tracks(h.sys, h.cs)
    && if Present(h.sys, h.slot, h.task) then h.x == h.cs[h.slot]
       else h.x == C.Born(C.Allocated(h.task)) || (!h.x.alive && h.task < |h.sys.gens|)
  }

  lemma StepKeepsHost(h: Host, op: Op)
    requires HostInv(h) && Once(h.sys, h.cs, op)
    ensures HostInv(HostStep(h, op))
  {
    var s, t := h.sys, Do(h.sys, op);
    OpTracks(s, h.cs, op);
    W.OpWakes(s, op);
    if Present(t, h.slot, h.task) {
      if Live(s.pcbs, h.slot) {
        SurvivorTask(s, op, h.slot);
        SurvivorFollows(s, h.cs, op, h.slot);
      } else {
        NewbornFollows(s, h.cs, op, h.slot);
      }
    }
  }

  // ---------------------------------------------------------------- its events are those of a connection

  /** Two sides of one connection, as the streams need them. */
  ghost predicate Linked(x: Conn, sx: set<Segment>, y: Conn, sy: set<Segment>) {
    && N.SideInv(x, sx) && N.SideInv(y, sy)
    && N.Heard(x, y) && N.Heard(y, x)
    && N.Credited(x, y) && N.Credited(y, x)
  }

  /** The events can happen to the block one after the other, on segments of the peer or bare resets. */
  ghost predicate LegalThrough(c: Conn, evs: seq<Event>, incoming: set<Segment>)
    decreases |evs|
  {
    evs == [] ||
    (&& C.Legal(c, evs[0])
     && (evs[0].Arrival? ==> evs[0].seg in incoming || E.BareReset(evs[0].seg))
     && LegalThrough(C.Next(c, evs[0]), evs[1..], incoming))
  }

  lemma EventsLegal(s: Sys, cs: seq<Conn>, op: Op, i: nat, incoming: set<Segment>)
    requires Tracks(s, cs) && Once(s, cs, op) && Live(s.pcbs, i)
    requires op.DeliverOp? && Select(s.pcbs, op.local, op.remote) == Some(i) ==>
      op.seg in incoming || E.BareReset(op.seg)
    ensures LegalThrough(cs[i], EventsAt(s, op, i), incoming)
  {
  }

  /** A bare reset claims nothing about the stream. */
  lemma LinkedAct(x: Conn, sx: set<Segment>, y: Conn, sy: set<Segment>, act: N.Action, extra: set<Segment>)
    requires Linked(x, sx, y, sy) && N.Allowed(x, act, sy + extra) && forall seg :: seg in extra ==> E.BareReset(seg)
    ensures Linked(N.Acted(x, act), sx + N.Sent(x, act), y, sy)
  {
    assert N.SideInv(y, sy + extra);
    N.ActKeeps(x, sx, y, sy + extra, act);
  }

  lemma {:induction false} LinkedThrough(x: Conn, sx: set<Segment>, y: Conn, sy: set<Segment>, evs: seq<Event>)
    requires Linked(x, sx, y, sy) && LegalThrough(x, evs, sy)
    ensures Linked(Through(x, evs), sx + SentThrough(x, evs), y, sy)
    decreases |evs|
  {
    if evs == [] {
      assert sx + SentThrough(x, evs) == sx;
    } else {
      var ev, act := evs[0], N.Do(evs[0]);
      LinkedAct(x, sx, y, sy, act, if ev.Arrival? && E.BareReset(ev.seg) then {ev.seg} else {});
      LinkedThrough(C.Next(x, ev), sx + N.Sent(x, act), y, sy, evs[1..]);
      assert sx + N.Sent(x, act) + SentThrough(C.Next(x, ev), evs[1..]) == sx + SentThrough(x, evs);
    }
  }

  lemma StepLinked(h: Host, op: Op, y: Conn, sy: set<Segment>)
    requires HostInv(h) && Once(h.sys, h.cs, op) && FromPeer(h, op, sy) && Linked(h.x, h.sent, y, sy)
    ensures Linked(HostStep(h, op).x, HostStep(h, op).sent, y, sy)
  {
    if Present(h.sys, h.slot, h.task) {
      var evs := EventsAt(h.sys, op, h.slot);
      EventsLegal(h.sys, h.cs, op, h.slot, sy);
      LinkedThrough(h.x, h.sent, y, sy, evs);
    } else if Present(Do(h.sys, op), h.slot, h.task) {
      BirthLinked(h, op, y, sy);
    }
  }

  lemma BirthLinked(h: Host, op: Op, y: Conn, sy: set<Segment>)
    requires HostInv(h) && FromPeer(h, op, sy) && Linked(h.x, h.sent, y, sy)
    requires !Present(h.sys, h.slot, h.task) && Present(Do(h.sys, op), h.slot, h.task)
    ensures Linked(N.Acted(h.x, Birth(h.sys, op)), h.sent + N.Sent(h.x, Birth(h.sys, op)), y, sy)
  {
    if Live(h.sys.pcbs, h.slot) {
      SurvivorTask(h.sys, op, h.slot);
    } else {
      NewbornFollows(h.sys, h.cs, op, h.slot);
      LinkedAct(h.x, h.sent, y, sy, Birth(h.sys, op), {});
    }
  }

  // ---------------------------------------------------------------- two hosts

  datatype Pair = Pair(a: Host, b: Host)

  datatype Turn = OnA(op: Op) | OnB(op: Op)

  ghost predicate MayTurn(n: Pair, turn: Turn) {
    if turn.OnA? then Once(n.a.sys, n.a.cs, turn.op) && FromPeer(n.a, turn.op, n.b.sent)
    else Once(n.b.sys, n.b.cs, turn.op) && FromPeer(n.b, turn.op, n.a.sent)
  }

  ghost predicate Turns(n: Pair, turn: Turn, succ: Pair) {
    && MayTurn(n, turn)
    && succ == if turn.OnA? then n.(a := HostStep(n.a, turn.op)) else n.(b := HostStep(n.b, turn.op))
  }

  ghost predicate Booted(h: Host) {
    h.sys == Sys([], [], {}) && h.cs == [] && h.x == C.Born(C.Allocated(h.task)) && h.sent == {}
  }

  /** A run of two hosts from their start: any operations on any blocks, in any order. */
  ghost predicate IsPairRun(t: seq<Pair>, ts: seq<Turn>) {
    && |t| == |ts| + 1
    && Booted(t[0].a) && Booted(t[0].b)
    && forall i {:trigger ts[i]} :: 0 <= i < |ts| ==> Turns(t[i], ts[i], t[i + 1])
  }

  ghost predicate PairInv(n: Pair) {
    HostInv(n.a) && HostInv(n.b) && Linked(n.a.x, n.a.sent, n.b.x, n.b.sent)
  }

  lemma TurnKeeps(n: Pair, turn: Turn, succ: Pair)
    requires PairInv(n) && Turns(n, turn, succ)
    ensures PairInv(succ)
  {
    if turn.OnA? {
      StepKeepsHost(n.a, turn.op);
      StepLinked(n.a, turn.op, n.b.x, n.b.sent);
    } else {
      StepKeepsHost(n.b, turn.op);
      StepLinked(n.b, turn.op, n.a.x, n.a.sent);
    }
  }

  lemma StartKeeps(n: Pair)
    requires Booted(n.a) && Booted(n.b)
    ensures PairInv(n)
  {
  }

  lemma {:induction false} PairRunKeeps(t: seq<Pair>, ts: seq<Turn>, i: nat)
    requires IsPairRun(t, ts) && i < |t|
    ensures PairInv(t[i])
  {
    if i == 0 {
      StartKeeps(t[0]);
    } else {
      PairRunKeeps(t, ts, i - 1);
      TurnKeeps(t[i - 1], ts[i - 1], t[i]);
    }
  }

  // ---------------------------------------------------------------- the theorems

  /** While the followed block is in the table, `x` is its history and holds its fields. */
  lemma PresentBlock(h: Host)
    requires HostInv(h) && Present(h.sys, h.slot, h.task)
    ensures h.x.alive && h.x.p == h.sys.pcbs[h.slot].value && h.x == h.cs[h.slot]
  {
  }

  /** Stream safety of two stacks: whatever else runs on either host, the bytes that `receive` returned followed by
      those in the buffer of the block are a prefix of what `send` wrote to the other block. */
  lemma TablesDeliverStreams(t: seq<Pair>, ts: seq<Turn>, i: nat)
    requires IsPairRun(t, ts) && i < |t|
    ensures t[i].b.x.h.read + t[i].b.x.p.buf <= t[i].a.x.h.written
    ensures t[i].a.x.h.read + t[i].a.x.p.buf <= t[i].b.x.h.written
    ensures Present(t[i].a.sys, t[i].a.slot, t[i].a.task) ==> t[i].a.x.p == t[i].a.sys.pcbs[t[i].a.slot].value
    ensures Present(t[i].b.sys, t[i].b.slot, t[i].b.task) ==> t[i].b.x.p == t[i].b.sys.pcbs[t[i].b.slot].value
  {
    PairRunKeeps(t, ts, i);
  }

  /** Every byte written to the block of `h` was accepted by the peer or is in the queue of the block in the table. */
  ghost predicate NothingLost(h: Host, y: Conn) {
    Present(h.sys, h.slot, h.task) && h.x.h.begun && !y.h.finSeen ==>
      && h.x.p == h.sys.pcbs[h.slot].value
      && forall k: nat :: k < |h.x.h.written| ==> N.Accounted(h.x, y, k)
  }

  lemma HostLosesNothing(h: Host, y: Conn, sy: set<Segment>)
    requires HostInv(h) && Linked(h.x, h.sent, y, sy)
    ensures NothingLost(h, y)
  {
    if Present(h.sys, h.slot, h.task) && h.x.h.begun && !y.h.finSeen {
      PresentBlock(h);
      forall k: nat | k < |h.x.h.written|
        ensures N.Accounted(h.x, y, k)
      {
        N.ByteAccounted(h.x, y, k);
      }
    }
  }

  /** Conservation of two stacks: as long as the block is in its table and the peer processed no FIN, no byte that
      `send` wrote is lost. */
  lemma TablesLoseNothing(t: seq<Pair>, ts: seq<Turn>, i: nat)
    requires IsPairRun(t, ts) && i < |t|
    ensures NothingLost(t[i].a, t[i].b.x) && NothingLost(t[i].b, t[i].a.x)
  {
    PairRunKeeps(t, ts, i);
    HostLosesNothing(t[i].a, t[i].b.x, t[i].b.sent);
    HostLosesNothing(t[i].b, t[i].a.x, t[i].a.sent);
  }
}
