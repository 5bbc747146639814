/** What every locked section of src/tcp.rs owes the threads that wait on a block: it leaves the block as they expect
    it, or it notifies its task. */
module TcpWake {
  import opened Wrappers
  import opened Words
  import opened Inet
  import opened TcpPcb
  import opened TcpTable
  import opened TcpOps

  /** The states in which `open` and `connect` wait. */
  predicate Waits(s: State) {
    s == Listen || s == SynSent || s == SynReceived
  }

  /** The blocks on which `accept` waits. */
  predicate IdleListener(p: Pcb) {
    p.state == Listen && p.mode == Socket && p.backlog == []
  }

  /** The blocks on which `receive` waits. */
  predicate ReceiveWaits(p: Pcb) {
    TakesText(p.state) && p.buf == []
  }

  /** Where a `receive` that waited can find its block without having been notified: nothing to read, and the stream
      open or ended by a FIN that notified nobody. */
  predicate ReaderHeld(p: Pcb) {
    p.buf == [] && (TakesText(p.state) || p.state == Closing || p.state == TimeWait)
  }

  /** Whoever may wait on `p` may still wait on `q`; a reader may have missed the end of the stream, a writer the
      opening of the window. */
  predicate Calm(p: Pcb, q: Pcb) {
    && q.task == p.task && (Waits(p.state) ==> Waits(q.state)) && (IdleListener(p) ==> IdleListener(q))
    && (ReaderHeld(p) ==> ReaderHeld(q)) && (CanSend(p.state) ==> CanSend(q.state))
  }

  /** Block `i` of `s` stays calm, or its task is notified. */
  predicate Kept(s: Sys, t: Sys, i: nat)
    requires Live(s.pcbs, i)
  {
    var task := s.pcbs[i].value.task;
    && task < |s.gens| <= |t.gens|
    && (s.gens[task] < t.gens[task] || (Live(t.pcbs, i) && Calm(s.pcbs[i].value, t.pcbs[i].value)))
  }

  ghost predicate Wakes(s: Sys, t: Sys, exempt: Option<nat>) {
    && ValidSys(t)
    && |s.gens| <= |t.gens|
    && (forall k :: 0 <= k < |s.gens| ==> s.gens[k] <= t.gens[k])
    && (forall i: nat :: Live(s.pcbs, i) && exempt != Some(i) ==> Kept(s, t, i))
  }

  lemma WakesTransitive(s: Sys, t: Sys, u: Sys, exempt: Option<nat>)
    requires Wakes(s, t, exempt) && Wakes(t, u, exempt)
    ensures Wakes(s, u, exempt)
  {
    forall i: nat | Live(s.pcbs, i) && exempt != Some(i)
      ensures Kept(s, u, i)
    {
      assert Kept(s, t, i);
      if Live(t.pcbs, i) && Calm(s.pcbs[i].value, t.pcbs[i].value) {
        assert Kept(t, u, i);
      }
    }
  }

  lemma WakesSelf(s: Sys)
    requires ValidSys(s)
    ensures Wakes(s, s, None)
  {
  }

  // ---------------------------------------------------------------- the parts of a section

  lemma ReactedWakes(s: Sys, d: nat, r: Reaction)
    requires ValidSys(s) && Live(s.pcbs, d) && SameIdentity(s.pcbs[d].value, r.pcb)
    ensures Wakes(s, Reacted(s, d, r), Some(d))
    ensures r.notices > 0 || Calm(s.pcbs[d].value, r.pcb) ==> Wakes(s, Reacted(s, d, r), None)
  {
    ReactedValid(s, d, r);
  }

  lemma JoinedWakes(s: Sys, d: nat)
    requires ValidSys(s) && Live(s.pcbs, d)
    ensures Wakes(s, Joined(s, d), None)
  {
    JoinedValid(s, d);
  }

  /** Every block that a release frees has its own waiters notified. */
  lemma ReleasedWakes(s: Sys, d: nat)
    requires ValidSys(s)
    ensures Wakes(s, Released(s, d), None)
    ensures Live(s.pcbs, d) ==> s.gens[s.pcbs[d].value.task] < Released(s, d).gens[s.pcbs[d].value.task]
  {
    ReleasedValid(s, d);
    if Live(s.pcbs, d) {
      ReachCloses(s.pcbs, d);
      var R := Reach(s.pcbs, d);
      forall i: nat | Live(s.pcbs, i)
        ensures Kept(s, Released(s, d), i)
      {
        if i in R {
          assert s.pcbs[i].value.task in TasksOf(s.pcbs, R);
        }
      }
      assert s.pcbs[d].value.task in TasksOf(s.pcbs, R);
    }
  }

  /** If `d` is the only block a first part disturbs and a second part notifies it, nobody is forgotten. */
  lemma ReleasedAfterwards(s: Sys, t: Sys, d: nat)
    requires Live(s.pcbs, d) && Wakes(s, t, Some(d)) && Live(t.pcbs, d) && ValidSys(s)
    requires t.pcbs[d].value.task == s.pcbs[d].value.task
    ensures Wakes(s, Released(t, d), None)
  {
    ReleasedWakes(t, d);
    assert Wakes(t, Released(t, d), Some(d));
    WakesTransitive(s, t, Released(t, d), Some(d));
    assert Kept(s, Released(t, d), d);
  }

  lemma ApplyWakes(s: Sys, d: nat, r: Reaction)
    requires ValidSys(s) && Live(s.pcbs, d) && SameIdentity(s.pcbs[d].value, r.pcb) && !(r.join && r.release)
    ensures Wakes(s, Apply(s, d, r), Some(d))
    ensures r.notices > 0 || r.release || Calm(s.pcbs[d].value, r.pcb) ==> Wakes(s, Apply(s, d, r), None)
  {
    var s1 := Reacted(s, d, r);
    ReactedWakes(s, d, r);
    ReactedValid(s, d, r);
    if r.release {
      ReleasedAfterwards(s, s1, d);
    } else if r.join {
      JoinedWakes(s1, d);
      WakesTransitive(s, s1, Joined(s1, d), Some(d));
      if Wakes(s, s1, None) {
        WakesTransitive(s, s1, Joined(s1, d), None);
      }
    }
  }

  lemma AllocatedWakes(s: Sys)
    requires ValidSys(s) && HasRoom(s.pcbs)
    ensures Wakes(s, Allocated(s), None)
  {
    AllocatedValid(s);
  }

  /** A new block in a slot that was free. */
  lemma PlacedWakes(s: Sys, q: Pcb, t: Sys)
    requires ValidSys(s) && HasRoom(s.pcbs) && q.task == |s.gens| && q.parent != Some(FirstFree(s.pcbs, 0))
    requires t.pcbs == Allocated(s).pcbs[FirstFree(s.pcbs, 0) := Some(q)] && t.gens == Allocated(s).gens
    ensures Wakes(s, t, None)
  {
    AllocatedValid(s);
  }

  // ---------------------------------------------------------------- SEGMENT ARRIVES

  lemma AckCalm(p: Pcb, seg: Segment, local: Endpoint, remote: Endpoint, now: nat)
    ensures var a := AckStage(p, seg, local, remote, now);
      SameIdentity(p, a.pcb) && (a.notices > 0 || a.verdict == Release || Calm(p, a.pcb))
  {
  }

  lemma LaterCalm(p: Pcb, seg: Segment, now: nat)
    ensures SameIdentity(p, TextStage(p, seg).pcb) && SameIdentity(p, FinStage(p, seg, now).pcb)
    ensures TextStage(p, seg).notices > 0 || Calm(p, TextStage(p, seg).pcb)
    ensures FinStage(p, seg, now).notices > 0 || Calm(p, FinStage(p, seg, now).pcb)
  {
  }

  lemma AfterAckCalm(p: Pcb, a: Stage, seg: Segment, now: nat)
    requires SameIdentity(p, a.pcb) && (a.notices > 0 || Calm(p, a.pcb))
    ensures var r := AfterAck(a, seg, now); SameIdentity(p, r.pcb) && (r.notices > 0 || Calm(p, r.pcb)) && !r.release
  {
    LaterCalm(a.pcb, seg, now);
    LaterCalm(TextStage(a.pcb, seg).pcb, seg, now);
  }

  /** What a block owes its waiters. */
  predicate Owes(p: Pcb, r: Reaction) {
    SameIdentity(p, r.pcb) && !(r.join && r.release) && (r.notices > 0 || r.release || Calm(p, r.pcb))
  }

  lemma SynchronizedOwes(p: Pcb, seg: Segment, local: Endpoint, remote: Endpoint, now: nat)
    ensures Owes(p, OnSynchronized(p, seg, local, remote, now))
  {
    var a := AckStage(p, seg, local, remote, now);
    AckCalm(p, seg, local, remote, now);
    if a.verdict == Continue {
      AfterAckCalm(p, a, seg, now);
    }
  }

  lemma ArriveOwes(p: Pcb, seg: Segment, local: Endpoint, remote: Endpoint, isn: u32, now: nat)
    ensures Owes(p, Arrive(p, seg, local, remote, isn, now))
  {
    SynchronizedOwes(p, seg, local, remote, now);
  }

  lemma DeliverWakes(s: Sys, seg: Segment, local: Endpoint, remote: Endpoint, isn: u32, now: nat)
    requires ValidSys(s)
    ensures Wakes(s, Deliver(s, seg, local, remote, isn, now), None)
  {
    SelectSpec(s.pcbs, local, remote);
    var sel := Select(s.pcbs, local, remote);
    if sel.Some? {
      var d := sel.value;
      var p := s.pcbs[d].value;
      if !Spawns(p, seg) {
        ArriveOwes(p, seg, local, remote, isn, now);
        ApplyWakes(s, d, Arrive(p, seg, local, remote, isn, now));
      } else if HasRoom(s.pcbs) {
        SpawnWakes(s, d, seg, local, remote, isn, now);
      }
    }
  }

  lemma SpawnWakes(s: Sys, d: nat, seg: Segment, local: Endpoint, remote: Endpoint, isn: u32, now: nat)
    requires ValidSys(s) && HasRoom(s.pcbs) && Live(s.pcbs, d)
    ensures Wakes(s, Spawn(s, d, seg, local, remote, isn, now), None)
  {
    var k := FirstFree(s.pcbs, 0);
    AllocatedValid(s);
    var q := TakeSyn(Allocated(s).pcbs[k].value.(parent := Some(d)), seg, local, remote, isn, now);
    PlacedWakes(s, q, Spawn(s, d, seg, local, remote, isn, now));
  }

  lemma {:induction false} TimerWakes(s: Sys, d: nat, now: nat)
    requires ValidSys(s)
    ensures Wakes(s, TimerFrom(s, d, now), None)
    decreases |s.pcbs| - d
  {
    if d >= |s.pcbs| {
      WakesSelf(s);
    } else if s.pcbs[d].None? {
      TimerWakes(s, d + 1, now);
    } else {
      var t := Apply(s, d, Tick(s.pcbs[d].value, now));
      ApplyWakes(s, d, Tick(s.pcbs[d].value, now));
      TimerWakes(t, d + 1, now);
      WakesTransitive(s, t, TimerFrom(t, d + 1, now), None);
    }
  }

  // ---------------------------------------------------------------- user calls

  lemma OpenActiveWakes(s: Sys, op: Op)
    requires ValidSys(s) && op.OpenActiveOp?
    ensures Wakes(s, Do(s, op), None)
  {
    if HasRoom(s.pcbs) {
      var a, d := Allocated(s), FirstFree(s.pcbs, 0);
      AllocatedValid(s);
      var source := Source(a.pcbs, op.local, op.remote, op.route);
      if source.None? {
        AllocatedWakes(s);
        ReleasedWakes(a, d);
        WakesTransitive(s, a, Released(a, d), None);
      } else {
        var r := StartConnect(a.pcbs[d].value, source.value, op.remote, op.isn, op.delivered, op.now);
        var b := Apply(a, d, r);
        PlacedWakes(s, r.pcb, b);
        ReleasedWakes(b, d);
        WakesTransitive(s, b, Released(b, d), None);
      }
    }
  }

  lemma OpenPassiveWakes(s: Sys, local: Endpoint, remote: Endpoint)
    requires ValidSys(s)
    ensures Wakes(s, OpenPassive(s, local, remote).0, None)
  {
    if HasRoom(s.pcbs) {
      var a, d := Allocated(s), FirstFree(s.pcbs, 0);
      AllocatedValid(s);
      if Select(a.pcbs, local, remote).Some? {
        AllocatedWakes(s);
        ReleasedWakes(a, d);
        WakesTransitive(s, a, Released(a, d), None);
      } else {
        PlacedWakes(s, Step(a.pcbs[d].value, UserListen(local, remote, 0)).pcb, OpenPassive(s, local, remote).0);
      }
    }
  }

  lemma SocketWakes(s: Sys)
    requires ValidSys(s)
    ensures Wakes(s, SocketCall(s).0, None)
  {
    if HasRoom(s.pcbs) {
      AllocatedValid(s);
      PlacedWakes(s, EmptyPcb(|s.gens|).(mode := Socket), SocketCall(s).0);
    }
  }

  /** One block is changed and stays calm. */
  lemma SlotWakes(s: Sys, d: nat, q: Pcb, t: Sys)
    requires ValidSys(s) && Live(s.pcbs, d) && SameIdentity(s.pcbs[d].value, q) && Calm(s.pcbs[d].value, q)
    requires t == s.(pcbs := s.pcbs[d := Some(q)])
    ensures Wakes(s, t, None)
  {
  }

  lemma PlainWakes(s: Sys, op: Op)
    requires ValidSys(s) && (op.BindOp? || op.ListenOp?)
    ensures Wakes(s, Do(s, op), None)
  {
    if Do(s, op) == s {
      WakesSelf(s);
    } else {
      SlotWakes(s, op.desc, Do(s, op).pcbs[op.desc].value, Do(s, op));
    }
  }

  /** `accept` pops a backlog that is not empty, and sets the segment size of the child. */
  lemma AcceptWakes(s: Sys, d: nat, mss: Option<u16>)
    requires ValidSys(s)
    ensures Wakes(s, Accept(s, d, mss).0, None)
  {
    WakesSelf(s);
    if Live(s.pcbs, d) && s.pcbs[d].value.state == Listen && s.pcbs[d].value.backlog != [] {
      var p := s.pcbs[d].value;
      var s1 := s.(pcbs := s.pcbs[d := Some(p.(backlog := p.backlog[1..]))]);
      SlotWakes(s, d, p.(backlog := p.backlog[1..]), s1);
      var k := p.backlog[0];
      if Live(s1.pcbs, k) && mss.Some? {
        var t := Accept(s, d, mss).0;
        SlotWakes(s1, k, s1.pcbs[k].value.(mss := mss.value), t);
        WakesTransitive(s, s1, t, None);
      }
    }
  }

  lemma CloseWakes(s: Sys, d: nat, now: nat)
    requires ValidSys(s)
    ensures Wakes(s, CloseCall(s, d, now).0, None)
  {
    if Live(s.pcbs, d) {
      assert Owes(s.pcbs[d].value, Close(s.pcbs[d].value, now));
      ApplyWakes(s, d, Close(s.pcbs[d].value, now));
    }
  }

  lemma CallWakes(s: Sys, op: Op)
    requires ValidSys(s) && (op.SendOp? || op.ReceiveOp? || op.EstablishOp?)
    ensures Wakes(s, Do(s, op), None)
  {
    if Live(s.pcbs, op.desc) && !(op.EstablishOp? && op.path.None?) {
      var p := s.pcbs[op.desc].value;
      var r := if op.SendOp? then Send(p, op.rest, op.now) else if op.ReceiveOp? then Receive(p, op.room)
               else Step(p, SetMss(op.path.value));
      assert Owes(p, r);
      ApplyWakes(s, op.desc, r);
    }
  }

  /** The block that a section may disturb without a notification: the one `connect` works on. */
  function Exempt(op: Op): Option<nat> {
    if op.ConnectOp? || (op.AbandonOp? && !op.gone) then Some(op.desc) else None
  }

  lemma AbandonWakes(s: Sys, op: Op)
    requires ValidSys(s) && op.AbandonOp?
    ensures Wakes(s, Do(s, op), Exempt(op))
  {
    var d := op.desc;
    if Live(s.pcbs, d) {
      var r := Step(s.pcbs[d].value, Abort);
      ApplyWakes(s, d, r);
      if op.gone {
        ReleasedAfterwards(s, Apply(s, d, r), d);
      }
    }
  }

  lemma ConnectWakes(s: Sys, op: Op)
    requires ValidSys(s) && op.ConnectOp?
    ensures Wakes(s, Do(s, op), Exempt(op))
  {
    var d := op.desc;
    if Live(s.pcbs, d) {
      var source := Source(s.pcbs, s.pcbs[d].value.local, op.remote, op.route);
      if source.Some? {
        ApplyWakes(s, d, StartConnect(s.pcbs[d].value, source.value, op.remote, op.isn, op.delivered, op.now));
      }
    }
  }

  /** Every locked section keeps the table valid and, apart from the block `connect` works on, leaves every block as
      its waiters expect it or notifies its task. */
  lemma OpWakes(s: Sys, op: Op)
    requires ValidSys(s)
    ensures Wakes(s, Do(s, op), Exempt(op))
  {
    match op
    case DeliverOp(seg, local, remote, isn, now) => DeliverWakes(s, seg, local, remote, isn, now);
    case TimerOp(now) => TimerWakes(s, 0, now);
    case OpenActiveOp(_, _, _, _, _, _) => OpenActiveWakes(s, op);
    case OpenPassiveOp(local, remote) => OpenPassiveWakes(s, local, remote);
    case SocketOp => SocketWakes(s);
    case BindOp(_, _) => PlainWakes(s, op);
    case ListenOp(_, _) => PlainWakes(s, op);
    case AcceptOp(d, mss) => AcceptWakes(s, d, mss);
    case CloseOp(d, now) => CloseWakes(s, d, now);
    case AbandonOp(_, _) => AbandonWakes(s, op);
    case ConnectOp(_, _, _, _, _, _) => ConnectWakes(s, op);
    case _ => CallWakes(s, op);
  }

  // ---------------------------------------------------------------- `send` and `receive` are not always served

  /** The ACK acknowledges something not yet sent, which ends the processing. */
  predicate AcksUnsent(p: Pcb, seg: Segment) {
    p.snd.nxt < seg.ack && p.snd.una <= seg.ack
  }

  predicate TextFits(p: Pcb, seg: Segment) {
    seg.sn == p.rcv.nxt && |seg.data| <= p.rcv.wnd
  }

  /** When a segment that passes the checks notifies an open block: exactly when it brings text that the block takes,
      or a FIN without text to an ESTABLISHED block. That it opens the send window is no reason, nor is a FIN in
      FIN_WAIT1 or FIN_WAIT2. */
  lemma NotifiesIff(p: Pcb, seg: Segment, local: Endpoint, remote: Endpoint, now: nat)
    requires p.state in {Established, CloseWait, FinWait1, FinWait2} && Passes(p, seg)
    ensures OnSynchronized(p, seg, local, remote, now).notices > 0
      <==> && !AcksUnsent(p, seg)
           && (if TakesText(p.state) && seg.data != [] then TextFits(p, seg) else p.state == Established && seg.flg.fin)
  {
    var a := AckStage(p, seg, local, remote, now);
    assert a.pcb.rcv == p.rcv && TakesText(a.pcb.state) == TakesText(p.state);
    if a.verdict == Continue {
      var t := TextStage(a.pcb, seg);
      assert t.pcb.state == a.pcb.state;
    }
  }

  /** So a `send` that waits for the window can wait on although the window is open: here the ACK of all that was in
      flight opens it, and nobody is notified. */
  lemma WindowOpensSilently(p: Pcb, local: Endpoint, remote: Endpoint, now: nat)
    requires p.state == Established && p.rcv.wnd > 0 && p.rcv.nxt + p.rcv.wnd < M32
    requires p.snd.una < p.snd.nxt && Capacity(p) == 0 && p.snd.wl1 <= p.rcv.nxt && p.snd.wl2 <= p.snd.nxt
    ensures var r := OnSynchronized(p, Segment(p.rcv.nxt, p.snd.nxt, ACK, 1000, []), local, remote, now);
      Capacity(r.pcb) == 1000 && r.notices == 0 && !r.release && !r.join
  {
  }

  /** A FIN without text that FIN_WAIT1 or FIN_WAIT2 takes while `receive` waits. */
  predicate FailsReader(p: Pcb, seg: Segment) {
    ReceiveWaits(p) && p.state != Established && Passes(p, seg) && !AcksUnsent(p, seg) && seg.data == [] && seg.flg.fin
  }

  /** When an arrival ends the reason for which `receive` waits and yet notifies nobody: exactly when it is a FIN
      without text in FIN_WAIT1 or FIN_WAIT2. */
  lemma LostReceiveIff(p: Pcb, seg: Segment, local: Endpoint, remote: Endpoint, now: nat)
    requires ReceiveWaits(p)
    ensures
      var r := OnSynchronized(p, seg, local, remote, now);
      !ReceiveWaits(r.pcb) && r.notices == 0 && !r.release
      <==> FailsReader(p, seg)
  {
    var a := AckStage(p, seg, local, remote, now);
    assert a.pcb.rcv == p.rcv && a.pcb.buf == p.buf && TakesText(a.pcb.state);
    if Passes(p, seg) && a.verdict == Continue {
      var t := TextStage(a.pcb, seg);
      assert t.pcb.state == a.pcb.state;
    }
  }
}
