/** What each locked section of src/tcp.rs does to the whole stack. */
module TcpOps {
  import opened Wrappers
  import opened Words
  import opened Inet
  import opened TcpPcb
  import opened TcpTable

  const DYNAMIC_PORT_MIN := 49152
  const DYNAMIC_PORT_MAX := 65535

  // ---------------------------------------------------------------- pcb_alloc

  /** The first free slot from `i` on, or the end of the table. */
  function FirstFree(pcbs: Slots, i: nat): (k: nat)
    requires i <= |pcbs|
    ensures i <= k <= |pcbs|
    ensures forall j :: i <= j < k ==> pcbs[j].Some?
    ensures k < |pcbs| ==> pcbs[k].None?
    decreases |pcbs| - i
  {
    if i == |pcbs| || pcbs[i].None? then i else FirstFree(pcbs, i + 1)
  }

  predicate HasRoom(pcbs: Slots) {
    FirstFree(pcbs, 0) < |pcbs| || |pcbs| < PCB_SIZE_MAX
  }

  /** The stack with a fresh block in the first free slot. */
  function Allocated(s: Sys): Sys {
    var d := FirstFree(s.pcbs, 0);
    var fresh' := Some(EmptyPcb(|s.gens|));
    Sys(if d < |s.pcbs| then s.pcbs[d := fresh'] else s.pcbs + [fresh'], s.gens + [0], s.wire)
  }

  // ---------------------------------------------------------------- pcb_select

  predicate Matches(p: Pcb, local: Endpoint, remote: Endpoint) {
    && p.local.port == local.port
    && (p.local.addr == local.addr || p.local.addr == ANY || local.addr != ANY)
    && (p.remote == remote || p.remote == WILDCARD || remote == WILDCARD)
  }

  /** The scan from slot `i` on, with the listener found so far. */
  function SelectFrom(pcbs: Slots, i: nat, candidate: Option<nat>, local: Endpoint, remote: Endpoint): Option<nat>
    decreases |pcbs| - i
  {
    if i >= |pcbs| then candidate
    else if pcbs[i].None? || !Matches(pcbs[i].value, local, remote) then
      SelectFrom(pcbs, i + 1, candidate, local, remote)
    else if pcbs[i].value.state != Listen then Some(i)
    else SelectFrom(pcbs, i + 1, Some(i), local, remote)
  }

  function Select(pcbs: Slots, local: Endpoint, remote: Endpoint): Option<nat> {
    SelectFrom(pcbs, 0, None, local, remote)
  }

  /** The selection prefers the first block that is past LISTEN; only without one it falls back to a listener. */
  lemma {:induction false} SelectFromSpec(pcbs: Slots, i: nat, candidate: Option<nat>, local: Endpoint,
                                          remote: Endpoint)
    requires candidate.Some? ==>
      candidate.value < i && Live(pcbs, candidate.value) && Matches(pcbs[candidate.value].value, local, remote)
      && pcbs[candidate.value].value.state == Listen
    ensures match SelectFrom(pcbs, i, candidate, local, remote)
      case None =>
        candidate.None? && forall j: nat :: i <= j && Live(pcbs, j) ==> !Matches(pcbs[j].value, local, remote)
      case Some(k) =>
        && Live(pcbs, k) && Matches(pcbs[k].value, local, remote)
        && (pcbs[k].value.state != Listen ==> i <= k) && (k < i ==> candidate == Some(k))
        && (forall j: nat :: i <= j && Live(pcbs, j) && Matches(pcbs[j].value, local, remote) ==>
              if pcbs[k].value.state == Listen then pcbs[j].value.state == Listen && j <= k
              else pcbs[j].value.state == Listen || k <= j)
    decreases |pcbs| - i
  {
    if i < |pcbs| {
      if pcbs[i].None? || !Matches(pcbs[i].value, local, remote) {
        SelectFromSpec(pcbs, i + 1, candidate, local, remote);
      } else if pcbs[i].value.state == Listen {
        SelectFromSpec(pcbs, i + 1, Some(i), local, remote);
      }
    }
  }

  /** What `pcb_select` returns: no live block matches; or the first match past LISTEN; or, with no such match, the
      last listener. */
  lemma SelectSpec(pcbs: Slots, local: Endpoint, remote: Endpoint)
    ensures match Select(pcbs, local, remote)
      case None => forall j: nat :: Live(pcbs, j) ==> !Matches(pcbs[j].value, local, remote)
      case Some(k) =>
        && Live(pcbs, k) && Matches(pcbs[k].value, local, remote)
        && (forall j: nat :: Live(pcbs, j) && Matches(pcbs[j].value, local, remote) ==>
              if pcbs[k].value.state == Listen then pcbs[j].value.state == Listen && j <= k
              else pcbs[j].value.state == Listen || k <= j)
  {
    SelectFromSpec(pcbs, 0, None, local, remote);
  }

  // ---------------------------------------------------------------- applying a reaction

  /** The block of `d` enters the backlog of its parent, if that is still live. */
  function Joined(s: Sys, d: nat): Sys
    requires Live(s.pcbs, d)
  {
    var parent := s.pcbs[d].value.parent;
    if parent.None? || !Live(s.pcbs, parent.value) then s
    else
      var p := s.pcbs[parent.value].value;
      Sys(s.pcbs[parent.value := Some(p.(backlog := p.backlog + [d]))], Noted(s.gens, p.task, 1), s.wire)
  }

  /** Task `t` was notified `n` times more. */
  function Noted(gens: seq<nat>, t: nat, n: nat): seq<nat> {
    if t < |gens| then gens[t := gens[t] + n] else gens
  }

  /** The stack after block `d` reacted. */
  function Reacted(s: Sys, d: nat, r: Reaction): Sys
    requires Live(s.pcbs, d)
  {
    Sys(s.pcbs[d := Some(r.pcb)], Noted(s.gens, s.pcbs[d].value.task, r.notices), s.wire + r.sent)
  }

  ghost function Apply(s: Sys, d: nat, r: Reaction): Sys
    requires Live(s.pcbs, d)
  {
    var s1 := Reacted(s, d, r);
    var s2 := if r.join then Joined(s1, d) else s1;
    if r.release then Released(s2, d) else s2
  }

  // ---------------------------------------------------------------- SEGMENT ARRIVES and the timer

  /** A child block takes the SYN that arrived for listener `d`. */
  function Spawn(s: Sys, d: nat, seg: Segment, local: Endpoint, remote: Endpoint, isn: u32, now: nat): Sys {
    var a := Allocated(s);
    var k := FirstFree(s.pcbs, 0);
    var child := TakeSyn(a.pcbs[k].value.(parent := Some(d)), seg, local, remote, isn, now);
    Sys(a.pcbs[k := Some(child)], a.gens, a.wire + {SynAckOf(child)})
  }

  /** A segment for listener `d`. */
  ghost function Heard(s: Sys, d: nat, seg: Segment, local: Endpoint, remote: Endpoint, isn: u32, now: nat): Sys
    requires Live(s.pcbs, d)
  {
    var p := s.pcbs[d].value;
    if Spawns(p, seg) then if HasRoom(s.pcbs) then Spawn(s, d, seg, local, remote, isn, now) else s
    else Apply(s, d, Arrive(p, seg, local, remote, isn, now))
  }

  ghost function Deliver(s: Sys, seg: Segment, local: Endpoint, remote: Endpoint, isn: u32, now: nat): Sys {
    match Select(s.pcbs, local, remote)
    case None => s.(wire := s.wire + Refuse(seg, local, remote))
    case Some(d) =>
      SelectSpec(s.pcbs, local, remote);
      Heard(s, d, seg, local, remote, isn, now)
  }

  /** One timer run from slot `d` on. */
  ghost function TimerFrom(s: Sys, d: nat, now: nat): Sys
    decreases |s.pcbs| - d
  {
    if d >= |s.pcbs| then s
    else if s.pcbs[d].None? then TimerFrom(s, d + 1, now)
    else
      TimerFrom(Apply(s, d, Tick(s.pcbs[d].value, now)), d + 1, now)
  }

  // ---------------------------------------------------------------- user calls

  function FreePort(pcbs: Slots, addr: IpAddr, remote: Endpoint, port: nat): Option<u16>
    requires DYNAMIC_PORT_MIN <= port <= DYNAMIC_PORT_MAX + 1
    decreases DYNAMIC_PORT_MAX + 1 - port
  {
    if port > DYNAMIC_PORT_MAX then None
    else if Select(pcbs, Endpoint(addr, port), remote).None? then Some(port)
    else FreePort(pcbs, addr, remote, port + 1)
  }

  /** The local endpoint that `open` and `connect` settle on, if it is free. */
  function Source(pcbs: Slots, local: Endpoint, remote: Endpoint, route: Option<IpAddr>): Option<Endpoint> {
    if local.addr == ANY && route.None? then None
    else
      var addr := if local.addr == ANY then route.value else local.addr;
      var port := if local.port == 0 then FreePort(pcbs, addr, remote, DYNAMIC_PORT_MIN) else Some(local.port);
      if port.None? || Select(pcbs, Endpoint(addr, port.value), remote).Some? then None
      else Some(Endpoint(addr, port.value))
  }

  /** The first locked section of an active `open`. */
  ghost function OpenActive(s: Sys, local: Endpoint, remote: Endpoint, route: Option<IpAddr>, isn: u32,
                            delivered: bool, now: nat): (r: (Sys, Result<nat>))
  {
    if !HasRoom(s.pcbs) then (s, Err)
    else
      var d, a := FirstFree(s.pcbs, 0), Allocated(s);
      var source := Source(a.pcbs, local, remote, route);
      if source.None? then (Released(a, d), Err)
      else
        var b := Apply(a, d, StartConnect(a.pcbs[d].value, source.value, remote, isn, delivered, now));
        if delivered then (b, Ok(d)) else (Released(b, d), Err)
  }

  /** The first locked section of a passive `open`. */
  ghost function OpenPassive(s: Sys, local: Endpoint, remote: Endpoint): (r: (Sys, Result<nat>)) {
    if !HasRoom(s.pcbs) then (s, Err)
    else
      var d, a := FirstFree(s.pcbs, 0), Allocated(s);
      if Select(a.pcbs, local, remote).Some? then (Released(a, d), Err)
      else (Apply(a, d, Step(a.pcbs[d].value, UserListen(local, remote, 0))), Ok(d))
  }

  /** The first locked section of `connect`. */
  ghost function Connect(s: Sys, d: nat, remote: Endpoint, route: Option<IpAddr>, isn: u32, delivered: bool, now: nat)
    : (r: (Sys, bool))
  {
    if !Live(s.pcbs, d) then (s, false)
    else
      var source := Source(s.pcbs, s.pcbs[d].value.local, remote, route);
      if source.None? then (s, false)
      else (Apply(s, d, StartConnect(s.pcbs[d].value, source.value, remote, isn, delivered, now)), delivered)
  }

  function SocketCall(s: Sys): (r: (Sys, Result<nat>)) {
    if !HasRoom(s.pcbs) then (s, Err)
    else
      var d, a := FirstFree(s.pcbs, 0), Allocated(s);
      (a.(pcbs := a.pcbs[d := Some(a.pcbs[d].value.(mode := Socket))]), Ok(d))
  }

  function Bind(s: Sys, d: nat, local: Endpoint): (r: (Sys, bool)) {
    if !Live(s.pcbs, d) || local.port == 0 || s.pcbs[d].value.state != Closed || Select(s.pcbs, local, WILDCARD).Some?
    then (s, false)
    else (s.(pcbs := s.pcbs[d := Some(s.pcbs[d].value.(local := local))]), true)
  }

  function ListenCall(s: Sys, d: nat, backlogMax: nat): (r: (Sys, bool)) {
    if !Live(s.pcbs, d) || s.pcbs[d].value.local.port == 0 || s.pcbs[d].value.state != Closed then (s, false)
    else
      var p := s.pcbs[d].value;
      (s.(pcbs := s.pcbs[d := Some(p.(backlogMax := backlogMax, state := Listen))]), true)
  }

  /** What one locked pass of `accept` finds. */
  datatype AcceptResult = Failed | Again | Blocked | Accepted(desc: nat, remote: Endpoint)

  /** One locked pass of `accept`; `mss` comes from the route to the peer, if there is one. */
  function Accept(s: Sys, d: nat, mss: Option<u16>): (r: (Sys, AcceptResult)) {
    if !Live(s.pcbs, d) || s.pcbs[d].value.state != Listen then (s, Failed)
    else
      var p := s.pcbs[d].value;
      if p.backlog == [] then (s, Blocked)
      else
        var k := p.backlog[0];
        var s1 := s.(pcbs := s.pcbs[d := Some(p.(backlog := p.backlog[1..]))]);
        if !Live(s1.pcbs, k) then (s1, Again)
        else if mss.None? then (s1, Failed)
        else
          var q := s1.pcbs[k].value;
          (s1.(pcbs := s1.pcbs[k := Some(q.(mss := mss.value))]), Accepted(k, q.remote))
  }

  /** `close`: its last step fails only if the block was freed on the way, as a member of its own backlog. */
  ghost function CloseCall(s: Sys, d: nat, now: nat): (r: (Sys, bool)) {
    if !Live(s.pcbs, d) || !CloseOk(s.pcbs[d].value.state) then (s, false)
    else
      var r := Close(s.pcbs[d].value, now);
      (Apply(s, d, r), r.release ==> d !in ReachPlus(s.pcbs, d))
  }

  datatype SendResult = SendError | SendDone | SendBlocked | Sent(count: nat)

  /** One locked pass of `send` over the text still to be written, for a live block. */
  ghost function SendCall(s: Sys, d: nat, rest: seq<u8>, now: nat): Sys {
    if !Live(s.pcbs, d) then s else Apply(s, d, Send(s.pcbs[d].value, rest, now))
  }

  function SendOutcome(s: Sys, d: nat, rest: seq<u8>): SendResult {
    if !Live(s.pcbs, d) || !CanSend(s.pcbs[d].value.state) then SendError
    else if rest == [] then SendDone
    else if Capacity(s.pcbs[d].value) == 0 then SendBlocked
    else Sent(|Chunk(s.pcbs[d].value, rest)|)
  }

  datatype ReceiveResult = ReceiveError | ReceiveBlocked | Received(bytes: seq<u8>)

  ghost function ReceiveCall(s: Sys, d: nat, room: nat): Sys {
    if !Live(s.pcbs, d) then s else Apply(s, d, Receive(s.pcbs[d].value, room))
  }

  function ReceiveOutcome(s: Sys, d: nat, room: nat): ReceiveResult {
    if !Live(s.pcbs, d) || s.pcbs[d].value.state in {Closed, Listen, SynSent, SynReceived} then ReceiveError
    else if TakesText(s.pcbs[d].value.state) && s.pcbs[d].value.buf == [] then ReceiveBlocked
    else Received(Taken(s.pcbs[d].value, room))
  }

  /** A wait of `open` (`gone`) or `connect` that was interrupted, or found the block in a state it cannot wait in. */
  ghost function Abandon(s: Sys, d: nat, gone: bool): Sys {
    if !Live(s.pcbs, d) then s
    else
      var s1 := Apply(s, d, Step(s.pcbs[d].value, Abort));
      if gone then Released(s1, d) else s1
  }

  /** The last locked section of `open` and `connect`; `mss` comes from the route to the peer, if there is one. */
  ghost function Establish(s: Sys, d: nat, mss: Option<u16>): (r: (Sys, bool)) {
    if !Live(s.pcbs, d) || mss.None? then (s, false)
    else (Apply(s, d, Step(s.pcbs[d].value, SetMss(mss.value))), true)
  }

  // ---------------------------------------------------------------- the table stays valid

  /** What no locked section changes about a live block. */
  predicate SameIdentity(p: Pcb, q: Pcb) {
    q.task == p.task && q.parent == p.parent
  }

  lemma AllocatedValid(s: Sys)
    requires ValidSys(s) && HasRoom(s.pcbs)
    ensures ValidSys(Allocated(s)) && Live(Allocated(s).pcbs, FirstFree(s.pcbs, 0))
    ensures Allocated(s).pcbs[FirstFree(s.pcbs, 0)].value == EmptyPcb(|s.gens|)
  {
  }

  lemma ReactedValid(s: Sys, d: nat, r: Reaction)
    requires ValidSys(s) && Live(s.pcbs, d) && SameIdentity(s.pcbs[d].value, r.pcb)
    ensures ValidSys(Reacted(s, d, r)) && Live(Reacted(s, d, r).pcbs, d)
  {
  }

  lemma JoinedValid(s: Sys, d: nat)
    requires ValidSys(s) && Live(s.pcbs, d)
    ensures ValidSys(Joined(s, d)) && Live(Joined(s, d).pcbs, d)
  {
  }

  lemma ApplyValid(s: Sys, d: nat, r: Reaction)
    requires ValidSys(s) && Live(s.pcbs, d) && SameIdentity(s.pcbs[d].value, r.pcb)
    ensures ValidSys(Apply(s, d, r))
  {
    ReactedValid(s, d, r);
    JoinedValid(Reacted(s, d, r), d);
    ReleasedValid(if r.join then Joined(Reacted(s, d, r), d) else Reacted(s, d, r), d);
  }

  /** Two reactions of one block in a row are one. */
  lemma ReactedTwice(s: Sys, d: nat, r: Reaction, q: Reaction)
    requires Live(s.pcbs, d) && r.pcb.task == s.pcbs[d].value.task
    ensures Reacted(Reacted(s, d, r), d, q)
            == Reacted(s, d, q.(sent := r.sent + q.sent, notices := r.notices + q.notices))
  {
    assert s.pcbs[d := Some(r.pcb)][d := Some(q.pcb)] == s.pcbs[d := Some(q.pcb)];
  }

  /** Joining the parent's backlog and reacting further commute. */
  lemma JoinedThenReacted(s: Sys, d: nat, r: Reaction)
    requires ValidSys(s) && Live(s.pcbs, d) && SameIdentity(s.pcbs[d].value, r.pcb)
    ensures Live(Joined(s, d).pcbs, d) && Joined(s, d).pcbs[d] == s.pcbs[d]
    ensures Reacted(Joined(s, d), d, r) == Joined(Reacted(s, d, r), d)
  {
    var parent := s.pcbs[d].value.parent;
    if parent.Some? && Live(s.pcbs, parent.value) {
      var p := s.pcbs[parent.value].value;
      var x := Some(p.(backlog := p.backlog + [d]));
      assert s.pcbs[parent.value := x][d := Some(r.pcb)] == s.pcbs[d := Some(r.pcb)][parent.value := x];
    }
  }

  /** The ACK check, read as a reaction of its own. */
  function Half(a: Stage): Reaction {
    Reaction(a.pcb, a.sent, a.notices, false, false)
  }

  lemma AckIdentity(p: Pcb, seg: Segment, local: Endpoint, remote: Endpoint, now: nat)
    ensures SameIdentity(p, AckStage(p, seg, local, remote, now).pcb)
  {
  }

  lemma LaterIdentity(p: Pcb, seg: Segment, now: nat)
    ensures SameIdentity(p, TextStage(p, seg).pcb) && SameIdentity(p, FinStage(p, seg, now).pcb)
  {
  }

  /** The text check and, unless that stops, the FIN check, as one reaction. */
  function Later(p: Pcb, seg: Segment, now: nat): Reaction {
    var t := TextStage(p, seg);
    var f := FinStage(t.pcb, seg, now);
    if t.verdict == Stop then Half(t) else Half(f).(sent := t.sent + f.sent, notices := t.notices + f.notices)
  }

  /** The stack after the text check and, unless that stopped, the FIN check. */
  function Finished(s: Sys, d: nat, seg: Segment, now: nat): Sys
    requires Live(s.pcbs, d)
  {
    var t := TextStage(s.pcbs[d].value, seg);
    var s1 := Reacted(s, d, Half(t));
    if t.verdict == Stop then s1 else Reacted(s1, d, Half(FinStage(t.pcb, seg, now)))
  }

  lemma FinishedIsLater(s: Sys, d: nat, seg: Segment, now: nat)
    requires Live(s.pcbs, d)
    ensures Finished(s, d, seg, now) == Reacted(s, d, Later(s.pcbs[d].value, seg, now))
    ensures SameIdentity(s.pcbs[d].value, Later(s.pcbs[d].value, seg, now).pcb)
  {
    var t := TextStage(s.pcbs[d].value, seg);
    LaterIdentity(s.pcbs[d].value, seg, now);
    LaterIdentity(t.pcb, seg, now);
    ReactedTwice(s, d, Half(t), Half(FinStage(t.pcb, seg, now)));
  }

  /** A check, the parent's backlog if it opened the connection, and a later reaction make one reaction. */
  lemma JoinBetween(s: Sys, d: nat, a: Stage, r: Reaction)
    requires ValidSys(s) && Live(s.pcbs, d) && SameIdentity(s.pcbs[d].value, a.pcb) && SameIdentity(a.pcb, r.pcb)
    ensures
      var s1 := Reacted(s, d, Half(a));
      Live(Joined(s1, d).pcbs, d) && Joined(s1, d).pcbs[d] == Some(a.pcb) &&
      Reacted(if a.join then Joined(s1, d) else s1, d, r)
      == Apply(s, d, Reaction(r.pcb, a.sent + r.sent, a.notices + r.notices, false, a.join))
  {
    var s1 := Reacted(s, d, Half(a));
    ReactedValid(s, d, Half(a));
    JoinedThenReacted(s1, d, r);
    ReactedTwice(s, d, Half(a), r);
  }

  /** The checks of a synchronized block, one after the other, are one reaction: the ACK check, the parent's backlog if
      the ACK opened the connection, the text check and, unless that stopped, the FIN check. */
  lemma ChecksCompose(s: Sys, d: nat, a: Stage, seg: Segment, now: nat)
    requires ValidSys(s) && Live(s.pcbs, d) && SameIdentity(s.pcbs[d].value, a.pcb)
    ensures
      var s1 := Reacted(s, d, Half(a));
      Live(Joined(s1, d).pcbs, d) && Joined(s1, d).pcbs[d] == Some(a.pcb) &&
      Finished(if a.join then Joined(s1, d) else s1, d, seg, now) == Apply(s, d, AfterAck(a, seg, now))
    ensures ValidSys(Apply(s, d, AfterAck(a, seg, now)))
  {
    var s1, r := Reacted(s, d, Half(a)), Later(a.pcb, seg, now);
    FinishedIsLater(s1, d, seg, now);
    JoinBetween(s, d, a, r);
    FinishedIsLater(if a.join then Joined(s1, d) else s1, d, seg, now);
    AfterAckIsLater(a, seg, now);
    ApplyValid(s, d, AfterAck(a, seg, now));
  }

  lemma AfterAckIsLater(a: Stage, seg: Segment, now: nat)
    ensures var r := Later(a.pcb, seg, now);
      AfterAck(a, seg, now) == Reaction(r.pcb, a.sent + r.sent, a.notices + r.notices, false, a.join)
  {
    var t := TextStage(a.pcb, seg);
    assert a.sent + t.sent + FinStage(t.pcb, seg, now).sent == a.sent + (t.sent + FinStage(t.pcb, seg, now).sent);
  }

  // ---------------------------------------------------------------- every locked section

  datatype Op =
    | DeliverOp(seg: Segment, local: Endpoint, remote: Endpoint, isn: u32, now: nat)
    | TimerOp(now: nat)
    | OpenActiveOp(local: Endpoint, remote: Endpoint, route: Option<IpAddr>, isn: u32, delivered: bool, now: nat)
    | OpenPassiveOp(local: Endpoint, remote: Endpoint)
    | ConnectOp(desc: nat, remote: Endpoint, route: Option<IpAddr>, isn: u32, delivered: bool, now: nat)
    | SocketOp
    | BindOp(desc: nat, local: Endpoint)
    | ListenOp(desc: nat, backlogMax: nat)
    | AcceptOp(desc: nat, path: Option<u16>)
    | CloseOp(desc: nat, now: nat)
    | SendOp(desc: nat, rest: seq<u8>, now: nat)
    | ReceiveOp(desc: nat, room: nat)
    | AbandonOp(desc: nat, gone: bool)
    | EstablishOp(desc: nat, path: Option<u16>)

  ghost function Do(s: Sys, op: Op): Sys {
    match op
    case DeliverOp(seg, local, remote, isn, now) => Deliver(s, seg, local, remote, isn, now)
    case TimerOp(now) => TimerFrom(s, 0, now)
    case OpenActiveOp(local, remote, route, isn, delivered, now) =>
      OpenActive(s, local, remote, route, isn, delivered, now).0
    case OpenPassiveOp(local, remote) => OpenPassive(s, local, remote).0
    case ConnectOp(desc, remote, route, isn, delivered, now) => Connect(s, desc, remote, route, isn, delivered, now).0
    case SocketOp => SocketCall(s).0
    case BindOp(desc, local) => Bind(s, desc, local).0
    case ListenOp(desc, backlogMax) => ListenCall(s, desc, backlogMax).0
    case AcceptOp(desc, mss) => Accept(s, desc, mss).0
    case CloseOp(desc, now) => CloseCall(s, desc, now).0
    case SendOp(desc, rest, now) => SendCall(s, desc, rest, now)
    case ReceiveOp(desc, room) => ReceiveCall(s, desc, room)
    case AbandonOp(desc, gone) => Abandon(s, desc, gone)
    case EstablishOp(desc, mss) => Establish(s, desc, mss).0
  }
}
