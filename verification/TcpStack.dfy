/** The TCP engine of src/tcp.rs as it runs: one object whose fields the calls update in place. */
module TcpStack {
  import opened Wrappers
  import opened Words
  import opened Inet
  import opened TcpPcb
  import opened TcpTable
  import opened TcpOps

  class Stack {
    var pcbs: seq<Option<Pcb>>
    var gens: seq<nat>
    var wire: set<Packet>

    ghost function View(): Sys
      reads this
    {
      Sys(pcbs, gens, wire)
    }

    ghost predicate Valid()
      reads this
    {
      ValidSys(View())
    }

    constructor ()
      ensures Valid() && View() == Sys([], [], {})
    {
      pcbs, gens, wire := [], [], {};
    }

    /** Releases a block and, first, everything in its backlog. It terminates on every table because each level takes
        its backlog away before it descends. */
    method PcbRelease(desc: nat) returns (ok: bool)
      requires Valid()
      modifies this
      ensures Valid() && View() == Released(old(View()), desc)
      ensures ok <==> Live(old(pcbs), desc) && desc !in ReachPlus(old(pcbs), desc)
      decreases Links(pcbs), 2
    {
      if !Live(pcbs, desc) {
        return false;
      }
      ghost var s := View();
      PartialStarts(s, desc);
      PartialValid(s, desc, {});
      var backlog := TakeBacklog(desc);
      ghost var F := ReleaseBacklog(backlog, s, desc);
      ReleaseEnds(s, desc, F);
      ReleasedValid(s, desc);
      ok := Vacate(desc);
    }

    method TakeBacklog(desc: nat) returns (backlog: seq<nat>)
      requires Live(pcbs, desc)
      modifies this
      ensures backlog == old(pcbs[desc].value.backlog)
      ensures View() == Sys(Emptied(old(pcbs), desc), old(gens), old(wire))
    {
      backlog := pcbs[desc].value.backlog;
      pcbs := pcbs[desc := Some(pcbs[desc].value.(backlog := []))];
    }

    method Vacate(desc: nat) returns (ok: bool)
      modifies this
      ensures ok == Live(old(pcbs), desc) && View() == Vacated(old(View()), desc)
    {
      ok := Live(pcbs, desc);
      if ok {
        var task := pcbs[desc].value.task;
        pcbs := pcbs[desc := None];
        Notify(task);
      }
    }

    method ResetEntry(b: nat)
      requires Live(pcbs, b)
      modifies this
      ensures View() == Doomed(old(View()), b)
    {
      var p := pcbs[b].value;
      if p.state != Closed {
        wire := wire + {Transmit(p, RST, [])};
        pcbs := pcbs[b := Some(p.(state := Closed))];
      }
    }

    /** The loop over a backlog that was taken from `desc` when the stack was `s`; `F` is what it freed. */
    method ReleaseBacklog(backlog: seq<nat>, ghost s: Sys, ghost desc: nat) returns (ghost F: set<nat>)
      requires ValidSys(s) && Live(s.pcbs, desc) && backlog == s.pcbs[desc].value.backlog
      requires View() == Partial(s, desc, {})
      modifies this
      ensures Progress(s, desc, |backlog|, F) && View() == Partial(s, desc, F)
      decreases Links(s.pcbs), 1
    {
      F := {};
      var k := 0;
      while k < |backlog|
        invariant 0 <= k <= |backlog|
        invariant Progress(s, desc, k, F) && View() == Partial(s, desc, F)
      {
        F := ReleaseEntry(backlog[k], s, desc, k, F);
        k := k + 1;
      }
    }

    /** One backlog entry: if it is live its peer gets a reset, unless it is closed already, and it is released. */
    method ReleaseEntry(b: nat, ghost s: Sys, ghost desc: nat, ghost k: nat, ghost F: set<nat>)
      returns (ghost G: set<nat>)
      requires ValidSys(s) && Live(s.pcbs, desc)
      requires k < |s.pcbs[desc].value.backlog| && b == s.pcbs[desc].value.backlog[k]
      requires Progress(s, desc, k, F) && View() == Partial(s, desc, F)
      modifies this
      ensures Progress(s, desc, k + 1, G) && View() == Partial(s, desc, G)
      decreases Links(s.pcbs), 0
    {
      PartialValid(s, desc, F);
      PartialLinks(s, desc, F);
      ghost var R := ReleaseRound(s, desc, k, F);
      G := F + R;
      if Live(pcbs, b) {
        DoomedKeeps(View(), b);
        ResetEntry(b);
        var _ := PcbRelease(b);
      }
    }

    // -------------------------------------------------------------- table

    method PcbAlloc() returns (desc: Option<nat>)
      requires Valid()
      modifies this
      ensures Valid() && View() == if HasRoom(old(pcbs)) then Allocated(old(View())) else old(View())
      ensures desc == if HasRoom(old(pcbs)) then Some(FirstFree(old(pcbs), 0)) else None
    {
      if HasRoom(pcbs) {
        AllocatedValid(View());
      }
      var i := 0;
      while i < |pcbs|
        invariant 0 <= i <= |pcbs| && FirstFree(pcbs, 0) == FirstFree(pcbs, i)
        invariant unchanged(this)
      {
        if pcbs[i].None? {
          pcbs := pcbs[i := Some(EmptyPcb(|gens|))];
          gens := gens + [0];
          return Some(i);
        }
        i := i + 1;
      }
      if |pcbs| >= PCB_SIZE_MAX {
        return None;
      }
      desc := Some(|pcbs|);
      pcbs := pcbs + [Some(EmptyPcb(|gens|))];
      gens := gens + [0];
    }

    method PcbSelect(local: Endpoint, remote: Endpoint) returns (desc: Option<nat>)
      ensures desc == Select(pcbs, local, remote)
    {
      var candidate: Option<nat> := None;
      var i := 0;
      while i < |pcbs|
        invariant 0 <= i <= |pcbs|
        invariant SelectFrom(pcbs, i, candidate, local, remote) == Select(pcbs, local, remote)
      {
        if pcbs[i].Some? && Matches(pcbs[i].value, local, remote) {
          if pcbs[i].value.state != Listen {
            return Some(i);
          }
          candidate := Some(i);
        }
        i := i + 1;
      }
      return candidate;
    }

    method Notify(task: nat)
      modifies this`gens
      ensures gens == Noted(old(gens), task, 1)
    {
      if task < |gens| {
        gens := gens[task := gens[task] + 1];
      }
    }

    // -------------------------------------------------------------- retransmission

    /** retrans_queue_cleanup */
    static method CleanupQueue(queue: seq<QueueEntry>, una: u32) returns (rest: seq<QueueEntry>)
      ensures rest == Cleanup(queue, una)
    {
      rest := queue;
      while rest != [] && una >= rest[0].End()
        invariant Cleanup(rest, una) == Cleanup(queue, una)
        decreases |rest|
      {
        rest := rest[1..];
      }
    }

    /** retrans_emit: give up past the deadline, otherwise send again what is due and double its timeout. */
    method RetransEmit(desc: nat, now: nat)
      requires Live(pcbs, desc) && !(pcbs[desc].value.state == TimeWait && now > pcbs[desc].value.twTimer)
      modifies this
      ensures View() == Reacted(old(View()), desc, Tick(old(pcbs[desc].value), now))
    {
      var pcb := pcbs[desc].value;
      if Expired(pcb.queue, now) {
        pcbs := pcbs[desc := Some(pcb.(state := Closed))];
        Notify(pcb.task);
        return;
      }
      var queue: seq<QueueEntry> := [];
      var i := 0;
      while i < |pcb.queue|
        invariant 0 <= i <= |pcb.queue| == |old(pcbs[desc].value).queue| && |queue| == i
        invariant forall k :: 0 <= k < i ==> queue[k] == Fire(pcb.queue[k], now)
        invariant wire == old(wire) + set k | 0 <= k < i && Due(pcb.queue[k], now) :: Resend(pcb, pcb.queue[k])
        invariant pcbs == old(pcbs) && gens == old(gens)
      {
        var entry := pcb.queue[i];
        if now >= entry.last + entry.rto {
          wire := wire + {Resend(pcb, entry)};
          entry := entry.(last := now, rto := 2 * entry.rto);
        }
        queue := queue + [entry];
        i := i + 1;
      }
      assert queue == Tick(pcb, now).pcb.queue;
      assert (set k | 0 <= k < i && Due(pcb.queue[k], now) :: Resend(pcb, pcb.queue[k])) == Tick(pcb, now).sent;
      pcbs := pcbs[desc := Some(pcb.(queue := queue))];
      assert gens == Noted(gens, pcb.task, 0);
    }

    /** The timer's work on one live block. */
    method TimerAt(desc: nat, now: nat)
      requires Valid() && Live(pcbs, desc)
      modifies this
      ensures Valid() && View() == Apply(old(View()), desc, Tick(old(pcbs[desc].value), now))
    {
      ghost var s, r := View(), Tick(pcbs[desc].value, now);
      ReactedValid(s, desc, r);
      var pcb := pcbs[desc].value;
      if pcb.state == TimeWait && now > pcb.twTimer {
        pcbs := pcbs[desc := Some(pcb.(state := Closed))];
        assert View() == Reacted(s, desc, r);
        var _ := PcbRelease(desc);
      } else {
        RetransEmit(desc, now);
      }
    }

    method OnTimer(now: nat)
      requires Valid()
      modifies this
      ensures Valid() && View() == TimerFrom(old(View()), 0, now)
    {
      var n := |pcbs|;
      var desc := 0;
      while desc < n
        invariant 0 <= desc <= n == |pcbs| && Valid()
        invariant TimerFrom(View(), desc, now) == TimerFrom(old(View()), 0, now)
      {
        if pcbs[desc].Some? {
          TimerAt(desc, now);
        }
        desc := desc + 1;
      }
    }

    // -------------------------------------------------------------- SEGMENT ARRIVES

    /** Fifth check: the ACK field. */
    method CheckAck(desc: nat, seg: Segment, local: Endpoint, remote: Endpoint, now: nat)
      returns (verdict: Verdict, join: bool)
      requires Live(pcbs, desc)
      modifies this
      ensures var a := AckStage(old(pcbs[desc].value), seg, local, remote, now);
              verdict == a.verdict && join == a.join && View() == Reacted(old(View()), desc, Half(a))
    {
      var pcb := pcbs[desc].value;
      assert gens == Noted(gens, pcb.task, 0) && pcbs == pcbs[desc := Some(pcb)];
      verdict, join := Continue, false;
      if pcb.state == SynReceived {
        if pcb.snd.una <= seg.ack && seg.ack <= pcb.snd.nxt {
          pcb := pcb.(state := Established);
          Notify(pcb.task);
          join := true;
        } else {
          wire := wire + {Reset(seg.ack, local, remote)};
          return Stop, false;
        }
      }
      if pcb.state in {Established, CloseWait, FinWait1, FinWait2} {
        if pcb.snd.una < seg.ack && seg.ack <= pcb.snd.nxt {
          pcb := TakeNewAck(pcb, seg);
        } else if seg.ack < pcb.snd.una {
          // duplicate ACK: ignore
        } else if pcb.snd.nxt < seg.ack {
          wire := wire + {Transmit(pcb, ACK, [])};
          return Stop, false;
        }
        if pcb.state == FinWait1 && seg.ack == pcb.snd.nxt {
          pcb := pcb.(state := FinWait2);
        }
      } else if pcb.state == Closing {
        if seg.ack == pcb.snd.nxt {
          pcb := pcb.(state := TimeWait, twTimer := now + TIMEWAIT);
          Notify(pcb.task);
        }
      } else if pcb.state == LastAck {
        verdict := Stop;
        if seg.ack == pcb.snd.nxt {
          pcb := pcb.(state := Closed);
          verdict := Release;
        }
      } else if pcb.state == TimeWait {
        if seg.flg.fin {
          pcb := pcb.(twTimer := now + TIMEWAIT);
        }
      }
      pcbs := pcbs[desc := Some(pcb)];
    }

    /** A new ACK advances SND.UNA, trims the queue and, if the segment is newer, takes its window. */
    static method TakeNewAck(before: Pcb, seg: Segment) returns (pcb: Pcb)
      ensures pcb == TakeAck(before, seg)
    {
      pcb := before.(snd := before.snd.(una := seg.ack));
      var queue := CleanupQueue(pcb.queue, pcb.snd.una);
      pcb := pcb.(queue := queue);
      if pcb.snd.wl1 < seg.sn || (pcb.snd.wl1 == seg.sn && pcb.snd.wl2 <= seg.ack) {
        pcb := pcb.(snd := pcb.snd.(wnd := seg.wnd, wl1 := seg.sn, wl2 := seg.ack));
      }
    }

    /** Seventh check: segment text. */
    method CheckText(desc: nat, seg: Segment) returns (stop: bool)
      requires Live(pcbs, desc)
      modifies this
      ensures var t := TextStage(old(pcbs[desc].value), seg);
              stop == (t.verdict == Stop) && View() == Reacted(old(View()), desc, Half(t))
    {
      var pcb := pcbs[desc].value;
      assert gens == Noted(gens, pcb.task, 0) && pcbs == pcbs[desc := Some(pcb)];
      if pcb.state in {Established, FinWait1, FinWait2} && seg.data != [] {
        var len := |seg.data|;
        if pcb.rcv.nxt != seg.sn || pcb.rcv.wnd < len {
          wire := wire + {Transmit(pcb, ACK, [])};
          return true;
        }
        pcb := pcb.(buf := pcb.buf + seg.data);
        pcb := pcb.(rcv := pcb.rcv.(nxt := Add32(seg.sn, len)));
        pcb := pcb.(rcv := pcb.rcv.(wnd := pcb.rcv.wnd - len));
        pcbs := pcbs[desc := Some(pcb)];
        wire := wire + {Transmit(pcb, ACK, [])};
        Notify(pcb.task);
      }
      return false;
    }

    /** Eighth check: the FIN bit. */
    method CheckFin(desc: nat, seg: Segment, now: nat)
      requires Live(pcbs, desc)
      modifies this
      ensures View() == Reacted(old(View()), desc, Half(FinStage(old(pcbs[desc].value), seg, now)))
    {
      var pcb := pcbs[desc].value;
      assert gens == Noted(gens, pcb.task, 0) && pcbs == pcbs[desc := Some(pcb)];
      if !seg.flg.fin || pcb.state == Closed || pcb.state == Listen {
        return;
      }
      pcb := pcb.(rcv := pcb.rcv.(nxt := Add32(seg.sn, 1)));
      wire := wire + {Transmit(pcb, ACK, [])};
      match pcb.state {
        case SynReceived | Established =>
          pcb := pcb.(state := CloseWait);
          Notify(pcb.task);
        case FinWait1 =>
          if seg.ack == pcb.snd.nxt {
            pcb := pcb.(state := TimeWait, twTimer := now + TIMEWAIT);
          } else {
            pcb := pcb.(state := Closing);
          }
        case FinWait2 =>
          pcb := pcb.(state := TimeWait, twTimer := now + TIMEWAIT);
        case _ =>
      }
      pcbs := pcbs[desc := Some(pcb)];
    }

    /** A connection that its peer completed enters the backlog of the listener it came from. */
    method JoinBacklog(desc: nat)
      requires Live(pcbs, desc)
      modifies this
      ensures View() == Joined(old(View()), desc)
    {
      var parent := pcbs[desc].value.parent;
      if parent.Some? && Live(pcbs, parent.value) {
        var p := pcbs[parent.value].value;
        pcbs := pcbs[parent.value := Some(p.(backlog := p.backlog + [desc]))];
        Notify(p.task);
      }
    }

    /** A block that was reset, or whose peer acknowledged the last FIN. */
    method CloseAndRelease(desc: nat, sent: set<Packet>)
      requires Valid() && Live(pcbs, desc)
      modifies this
      ensures Valid()
      ensures View() == Apply(old(View()), desc,
                              Reaction(old(pcbs[desc].value).(state := Closed), sent, 0, true, false))
    {
      ghost var s := View();
      ghost var r := Reaction(pcbs[desc].value.(state := Closed), sent, 0, true, false);
      ReactedValid(s, desc, r);
      wire := wire + sent;
      pcbs := pcbs[desc := Some(pcbs[desc].value.(state := Closed))];
      assert View() == Reacted(s, desc, r);
      var _ := PcbRelease(desc);
    }

    method ArriveSynchronized(desc: nat, seg: Segment, local: Endpoint, remote: Endpoint, now: nat)
      requires Valid() && Live(pcbs, desc)
      modifies this
      ensures Valid()
      ensures View() == Apply(old(View()), desc, OnSynchronized(old(pcbs[desc].value), seg, local, remote, now))
    {
      ghost var s := View();
      var pcb := pcbs[desc].value;
      assert gens == Noted(gens, pcb.task, 0) && pcbs == pcbs[desc := Some(pcb)];
      if !Acceptable(pcb.rcv, seg) {
        if !seg.flg.rst {
          wire := wire + {Transmit(pcb, ACK, [])};
        }
        return;
      }
      if seg.flg.rst {
        CloseAndRelease(desc, {});
        return;
      }
      if seg.flg.syn {
        CloseAndRelease(desc, {Transmit(pcb, RST, [])});
        return;
      }
      if !seg.flg.ack {
        return;
      }
      ArriveAcked(desc, seg, local, remote, now);
    }

    method ArriveAcked(desc: nat, seg: Segment, local: Endpoint, remote: Endpoint, now: nat)
      requires Valid() && Live(pcbs, desc)
      modifies this
      ensures Valid()
      ensures var a := AckStage(old(pcbs[desc].value), seg, local, remote, now);
        View() == Apply(old(View()), desc,
                        if a.verdict == Continue then AfterAck(a, seg, now)
                        else Half(a).(release := a.verdict == Release))
    {
      ghost var s := View();
      AckIdentity(pcbs[desc].value, seg, local, remote, now);
      ChecksCompose(s, desc, AckStage(pcbs[desc].value, seg, local, remote, now), seg, now);
      ReactedValid(s, desc, Half(AckStage(pcbs[desc].value, seg, local, remote, now)));
      var verdict, join := CheckAck(desc, seg, local, remote, now);
      if verdict == Stop {
        return;
      }
      if verdict == Release {
        var _ := PcbRelease(desc);
        return;
      }
      if join {
        JoinBacklog(desc);
      }
      var stop := CheckText(desc, seg);
      if !stop {
        CheckFin(desc, seg, now);
      }
    }

    /** LISTEN: a SYN is taken by the listener itself, or by a new child of a listener in socket mode. */
    method ArriveListen(desc: nat, seg: Segment, local: Endpoint, remote: Endpoint, isn: u32, now: nat)
      requires Valid() && Live(pcbs, desc) && pcbs[desc].value.state == Listen
      modifies this
      ensures Valid()
      ensures View() == Heard(old(View()), desc, seg, local, remote, isn, now)
    {
      var pcb := pcbs[desc].value;
      assert gens == Noted(gens, pcb.task, 0) && pcbs == pcbs[desc := Some(pcb)];
      if seg.flg.rst {
        return;
      }
      if seg.flg.ack {
        wire := wire + {Reset(seg.ack, local, remote)};
        return;
      }
      if !seg.flg.syn {
        return;
      }
      if pcb.mode == Rfc {
        AcceptSyn(desc, seg, local, remote, isn, now);
      } else if |pcb.backlog| < pcb.backlogMax {
        AdoptSyn(desc, seg, local, remote, isn, now);
      }
    }

    /** A new child of listener `desc` takes the SYN, if the table has room. */
    method AdoptSyn(desc: nat, seg: Segment, local: Endpoint, remote: Endpoint, isn: u32, now: nat)
      requires Valid() && Live(pcbs, desc)
      modifies this
      ensures Valid()
      ensures View() == if HasRoom(old(pcbs)) then Spawn(old(View()), desc, seg, local, remote, isn, now)
                        else old(View())
    {
      var child := PcbAlloc();
      if child.Some? {
        ghost var a := View();
        pcbs := pcbs[child.value := Some(pcbs[child.value].value.(parent := Some(desc)))];
        AcceptSyn(child.value, seg, local, remote, isn, now);
        assert pcbs == a.pcbs[child.value := pcbs[child.value]];
      }
    }

    method AcceptSyn(desc: nat, seg: Segment, local: Endpoint, remote: Endpoint, isn: u32, now: nat)
      requires Valid() && Live(pcbs, desc)
      modifies this
      ensures var q := TakeSyn(old(pcbs[desc].value), seg, local, remote, isn, now);
              Valid() && View() == Sys(old(pcbs)[desc := Some(q)], old(gens), old(wire) + {SynAckOf(q)})
    {
      var pcb := pcbs[desc].value.(local := local, remote := remote);
      pcb := pcb.(rcv := pcb.rcv.(wnd := RECV_BUF_SIZE));
      pcb := pcb.(rcv := pcb.rcv.(nxt := Add32(seg.sn, 1)));
      pcb := pcb.(irs := seg.sn, iss := isn);
      wire := wire + {Transmit(pcb, SYN_ACK, [])};
      pcb := Output(pcb, SYN_ACK, [], now);
      pcb := pcb.(snd := pcb.snd.(nxt := Add32(pcb.iss, 1)));
      pcb := pcb.(snd := pcb.snd.(una := pcb.iss), state := SynReceived);
      pcbs := pcbs[desc := Some(pcb)];
    }

    method ArriveSynSent(desc: nat, seg: Segment, local: Endpoint, remote: Endpoint, now: nat)
      requires Valid() && Live(pcbs, desc)
      modifies this
      ensures Valid() && View() == Apply(old(View()), desc, OnSynSent(old(pcbs[desc].value), seg, local, remote, now))
    {
      ghost var s, r := View(), OnSynSent(pcbs[desc].value, seg, local, remote, now);
      ReactedValid(s, desc, r);
      var pcb := pcbs[desc].value;
      assert gens == Noted(gens, pcb.task, 0) && pcbs == pcbs[desc := Some(pcb)];
      var acceptable := false;
      if seg.flg.ack {
        if seg.ack <= pcb.iss || seg.ack > pcb.snd.nxt {
          wire := wire + {Reset(seg.ack, local, remote)};
          return;
        }
        acceptable := pcb.snd.una <= seg.ack && seg.ack <= pcb.snd.nxt;
      }
      if seg.flg.rst {
        if acceptable {
          CloseAndRelease(desc, {});
        }
        return;
      }
      if !seg.flg.syn {
        return;
      }
      pcb := pcb.(rcv := pcb.rcv.(nxt := Add32(seg.sn, 1)), irs := seg.sn);
      if acceptable {
        var queue := CleanupQueue(pcb.queue, seg.ack);
        pcb := pcb.(snd := pcb.snd.(una := seg.ack), queue := queue);
      }
      if pcb.snd.una > pcb.iss {
        wire := wire + {Transmit(pcb, ACK, [])};
        pcb := pcb.(state := Established, snd := pcb.snd.(wnd := seg.wnd, wl1 := seg.sn, wl2 := seg.ack));
        Notify(pcb.task);
      } else {
        pcb := pcb.(state := SynReceived);
        wire := wire + {Transmit(pcb, SYN_ACK, [])};
        pcb := Output(pcb, SYN_ACK, [], now);
      }
      pcbs := pcbs[desc := Some(pcb)];
      assert View() == Reacted(s, desc, r);
    }

    /** segment_arrives */
    method SegmentArrives(seg: Segment, local: Endpoint, remote: Endpoint, isn: u32, now: nat)
      requires Valid()
      modifies this
      ensures Valid() && View() == Deliver(old(View()), seg, local, remote, isn, now)
    {
      SelectSpec(pcbs, local, remote);
      var found := PcbSelect(local, remote);
      if found.None? || pcbs[found.value].value.state == Closed {
        if found.Some? {
          assert gens == Noted(gens, pcbs[found.value].value.task, 0) && pcbs == pcbs[found.value := pcbs[found.value]];
        }
        if seg.flg.rst {
          return;
        }
        if !seg.flg.ack {
          wire := wire + {Packet(local, remote, Segment(0, Add32(seg.sn, seg.Len()), RST_ACK, 0, []))};
        } else {
          wire := wire + {Reset(seg.ack, local, remote)};
        }
        return;
      }
      var desc := found.value;
      if pcbs[desc].value.state == Listen {
        ArriveListen(desc, seg, local, remote, isn, now);
      } else if pcbs[desc].value.state == SynSent {
        ArriveSynSent(desc, seg, local, remote, now);
      } else {
        ArriveSynchronized(desc, seg, local, remote, now);
      }
    }

    // -------------------------------------------------------------- user calls

    /** The scan of the dynamic ports. */
    method AssignPort(addr: IpAddr, remote: Endpoint) returns (port: Option<u16>)
      ensures port == FreePort(pcbs, addr, remote, DYNAMIC_PORT_MIN)
    {
      var p := DYNAMIC_PORT_MIN;
      while p <= DYNAMIC_PORT_MAX
        invariant DYNAMIC_PORT_MIN <= p <= DYNAMIC_PORT_MAX + 1
        invariant FreePort(pcbs, addr, remote, DYNAMIC_PORT_MIN) == FreePort(pcbs, addr, remote, p)
      {
        var exist := PcbSelect(Endpoint(addr, p), remote);
        if exist.None? {
          return Some(p);
        }
        p := p + 1;
      }
      return None;
    }

    /** The local endpoint that an active open or a connect uses. */
    method ChooseSource(wanted: Endpoint, remote: Endpoint, route: Option<IpAddr>) returns (source: Option<Endpoint>)
      ensures source == Source(pcbs, wanted, remote, route)
    {
      var local := wanted;
      if local.addr == ANY {
        if route.None? {
          return None;
        }
        local := local.(addr := route.value);
      }
      if local.port == 0 {
        var chosen := AssignPort(local.addr, remote);
        if chosen.None? {
          return None;
        }
        local := local.(port := chosen.value);
      }
      var exist := PcbSelect(local, remote);
      return if exist.Some? then None else Some(local);
    }

    /** Sends the SYN of `open` and `connect`; `delivered` is the verdict of the IP layer. */
    method SendSyn(desc: nat, local: Endpoint, remote: Endpoint, isn: u32, delivered: bool, now: nat)
      requires Valid() && Live(pcbs, desc)
      modifies this
      ensures Valid()
      ensures View() == Apply(old(View()), desc,
                              StartConnect(old(pcbs[desc].value), local, remote, isn, delivered, now))
    {
      ghost var s, r := View(), StartConnect(pcbs[desc].value, local, remote, isn, delivered, now);
      ReactedValid(s, desc, r);
      var pcb := pcbs[desc].value;
      assert gens == Noted(gens, pcb.task, 0);
      pcb := pcb.(local := local, remote := remote, rcv := pcb.rcv.(wnd := RECV_BUF_SIZE), iss := isn);
      wire := wire + {Transmit(pcb, SYN, [])};
      pcb := Output(pcb, SYN, [], now);
      if !delivered {
        pcb := pcb.(state := Closed);
      } else {
        pcb := pcb.(snd := pcb.snd.(una := pcb.iss, nxt := Add32(pcb.iss, 1)), state := SynSent);
      }
      pcbs := pcbs[desc := Some(pcb)];
      assert View() == Reacted(s, desc, r);
    }

    /** `open(local, remote, true)` up to its wait. */
    method OpenActively(local: Endpoint, remote: Endpoint, route: Option<IpAddr>, isn: u32, delivered: bool, now: nat)
      returns (r: Result<nat>)
      requires Valid()
      modifies this
      ensures Valid() && (View(), r) == OpenActive(old(View()), local, remote, route, isn, delivered, now)
    {
      var found := PcbAlloc();
      if found.None? {
        return Err;
      }
      var desc := found.value;
      AllocatedValid(old(View()));
      var source := ChooseSource(local, remote, route);
      if source.None? {
        var _ := PcbRelease(desc);
        return Err;
      }
      SendSyn(desc, source.value, remote, isn, delivered, now);
      if !delivered {
        var _ := PcbRelease(desc);
        return Err;
      }
      return Ok(desc);
    }

    /** `open(local, remote, false)` up to its wait. */
    method OpenPassively(local: Endpoint, remote: Endpoint) returns (r: Result<nat>)
      requires Valid()
      modifies this
      ensures Valid() && (View(), r) == OpenPassive(old(View()), local, remote)
    {
      var found := PcbAlloc();
      if found.None? {
        return Err;
      }
      var desc := found.value;
      AllocatedValid(old(View()));
      var exist := PcbSelect(local, remote);
      if exist.Some? {
        var _ := PcbRelease(desc);
        return Err;
      }
      ghost var s, q := View(), Step(pcbs[desc].value, UserListen(local, remote, 0));
      ReactedValid(s, desc, q);
      pcbs := pcbs[desc := Some(pcbs[desc].value.(local := local, remote := remote, state := Listen))];
      assert View() == Reacted(s, desc, q);
      return Ok(desc);
    }

    /** `connect` up to its wait. */
    method ConnectTo(desc: nat, remote: Endpoint, route: Option<IpAddr>, isn: u32, delivered: bool, now: nat)
      returns (ok: bool)
      requires Valid()
      modifies this
      ensures Valid() && (View(), ok) == Connect(old(View()), desc, remote, route, isn, delivered, now)
    {
      if !Live(pcbs, desc) {
        return false;
      }
      var source := ChooseSource(pcbs[desc].value.local, remote, route);
      if source.None? {
        return false;
      }
      SendSyn(desc, source.value, remote, isn, delivered, now);
      return delivered;
    }

    method OpenSocket() returns (r: Result<nat>)
      requires Valid()
      modifies this
      ensures Valid() && (View(), r) == SocketCall(old(View()))
    {
      var found := PcbAlloc();
      if found.None? {
        return Err;
      }
      var desc := found.value;
      pcbs := pcbs[desc := Some(pcbs[desc].value.(mode := Socket))];
      return Ok(desc);
    }

    method BindTo(desc: nat, local: Endpoint) returns (ok: bool)
      requires Valid()
      modifies this
      ensures Valid() && (View(), ok) == Bind(old(View()), desc, local)
    {
      if !Live(pcbs, desc) || local.port == 0 || pcbs[desc].value.state != Closed {
        return false;
      }
      var exist := PcbSelect(local, WILDCARD);
      if exist.Some? {
        return false;
      }
      pcbs := pcbs[desc := Some(pcbs[desc].value.(local := local))];
      return true;
    }

    method StartListening(desc: nat, backlog: nat) returns (ok: bool)
      requires Valid()
      modifies this
      ensures Valid() && (View(), ok) == ListenCall(old(View()), desc, backlog)
    {
      if !Live(pcbs, desc) || pcbs[desc].value.local.port == 0 || pcbs[desc].value.state != Closed {
        return false;
      }
      pcbs := pcbs[desc := Some(pcbs[desc].value.(backlogMax := backlog, state := Listen))];
      return true;
    }

    /** One locked pass of `accept`. */
    method AcceptPass(desc: nat, mss: Option<u16>) returns (r: AcceptResult)
      requires Valid()
      modifies this
      ensures Valid() && (View(), r) == Accept(old(View()), desc, mss)
    {
      if !Live(pcbs, desc) || pcbs[desc].value.state != Listen {
        return Failed;
      }
      var pcb := pcbs[desc].value;
      if pcb.backlog == [] {
        return Blocked;
      }
      var child := pcb.backlog[0];
      pcbs := pcbs[desc := Some(pcb.(backlog := pcb.backlog[1..]))];
      if !Live(pcbs, child) {
        return Again;
      }
      var remote := pcbs[child].value.remote;
      if mss.None? {
        return Failed;
      }
      pcbs := pcbs[child := Some(pcbs[child].value.(mss := mss.value))];
      return Accepted(child, remote);
    }

    /** `close`: it fails on a block that is closed, closing, or waits in its own backlog. */
    method CloseConnection(desc: nat, now: nat) returns (ok: bool)
      requires Valid()
      modifies this
      ensures Valid() && View() == CloseCall(old(View()), desc, now).0
      ensures ok <==> CloseCall(old(View()), desc, now).1
    {
      if !Live(pcbs, desc) || !CloseOk(pcbs[desc].value.state) {
        return false;
      }
      ghost var s, r := View(), Close(pcbs[desc].value, now);
      ReactedValid(s, desc, r);
      var pcb := pcbs[desc].value;
      assert gens == Noted(gens, pcb.task, 0);
      if pcb.state == Listen || pcb.state == SynSent {
        pcbs := pcbs[desc := Some(pcb.(state := Closed))];
        assert View() == Reacted(s, desc, r);
        SameLinksSameReach(s.pcbs, pcbs, desc);
        ok := PcbRelease(desc);
        return;
      }
      wire := wire + {Transmit(pcb, ACK_FIN, [])};
      pcb := Output(pcb, ACK_FIN, [], now);
      pcb := pcb.(snd := pcb.snd.(nxt := Add32(pcb.snd.nxt, 1)));
      pcb := pcb.(state := if pcb.state == CloseWait then LastAck else FinWait1);
      pcbs := pcbs[desc := Some(pcb)];
      Notify(pcb.task);
      assert View() == Reacted(s, desc, r);
      return true;
    }

    /** One locked pass of `send`; `n` bytes of `rest` were sent, or the caller has to wait for the window. */
    method SendPass(desc: nat, rest: seq<u8>, now: nat) returns (r: SendResult)
      requires Valid()
      modifies this
      ensures Valid() && View() == SendCall(old(View()), desc, rest, now)
      ensures r == SendOutcome(old(View()), desc, rest)
    {
      if !Live(pcbs, desc) {
        return SendError;
      }
      ghost var s, q := View(), Send(pcbs[desc].value, rest, now);
      ReactedValid(s, desc, q);
      var pcb := pcbs[desc].value;
      assert gens == Noted(gens, pcb.task, 0) && pcbs == pcbs[desc := Some(pcb)];
      if pcb.state != Established && pcb.state != CloseWait {
        return SendError;
      }
      if rest == [] {
        return SendDone;
      }
      var inFlight := Sub32(pcb.snd.nxt, pcb.snd.una);
      var cap := if pcb.snd.wnd <= inFlight then 0 else pcb.snd.wnd - inFlight;
      if cap == 0 {
        return SendBlocked;
      }
      var n := Min(pcb.mss, Min(|rest|, cap));
      wire := wire + {Transmit(pcb, ACK_PSH, rest[..n])};
      pcb := Output(pcb, ACK_PSH, rest[..n], now);
      pcb := pcb.(snd := pcb.snd.(nxt := Add32(pcb.snd.nxt, n)));
      pcbs := pcbs[desc := Some(pcb)];
      assert View() == Reacted(s, desc, q);
      return Sent(n);
    }

    /** One locked pass of `receive` into a buffer with `room` bytes. */
    method ReceivePass(desc: nat, room: nat) returns (r: ReceiveResult)
      requires Valid()
      modifies this
      ensures Valid() && View() == ReceiveCall(old(View()), desc, room)
      ensures r == ReceiveOutcome(old(View()), desc, room)
    {
      if !Live(pcbs, desc) {
        return ReceiveError;
      }
      ghost var s, q := View(), Receive(pcbs[desc].value, room);
      ReactedValid(s, desc, q);
      var pcb := pcbs[desc].value;
      assert gens == Noted(gens, pcb.task, 0) && pcbs == pcbs[desc := Some(pcb)];
      if pcb.state in {Established, FinWait1, FinWait2, CloseWait} {
        if pcb.buf == [] {
          return if pcb.state == CloseWait then Received([]) else ReceiveBlocked;
        }
        var n := Min(room, |pcb.buf|);
        r := Received(pcb.buf[..n]);
        pcb := pcb.(buf := pcb.buf[n..], rcv := pcb.rcv.(wnd := (pcb.rcv.wnd + n) % 0x1_0000));
        pcbs := pcbs[desc := Some(pcb)];
        assert View() == Reacted(s, desc, q);
      } else if pcb.state in {Closing, LastAck, TimeWait} {
        r := Received([]);
      } else {
        r := ReceiveError;
      }
    }

    /** What `open` and `connect` do when their wait fails. */
    method GiveUp(desc: nat, release: bool)
      requires Valid()
      modifies this
      ensures Valid() && View() == Abandon(old(View()), desc, release)
    {
      if Live(pcbs, desc) {
        ghost var s, r := View(), Step(pcbs[desc].value, Abort);
        ReactedValid(s, desc, r);
        pcbs := pcbs[desc := Some(pcbs[desc].value.(state := Closed))];
        assert gens == Noted(gens, s.pcbs[desc].value.task, 0);
        assert View() == Reacted(s, desc, r);
        if release {
          var _ := PcbRelease(desc);
        }
      }
    }

    /** The last locked section of `open` and `connect`: the segment size comes from the route's interface. Without a
        route the call fails and leaves the connection as it is. */
    method SetSegmentSize(desc: nat, mss: Option<u16>) returns (ok: bool)
      requires Valid()
      modifies this
      ensures Valid() && (View(), ok) == Establish(old(View()), desc, mss)
    {
      if !Live(pcbs, desc) || mss.None? {
        return false;
      }
      ghost var s, r := View(), Step(pcbs[desc].value, SetMss(mss.value));
      ReactedValid(s, desc, r);
      pcbs := pcbs[desc := Some(pcbs[desc].value.(mss := mss.value))];
      assert gens == Noted(gens, s.pcbs[desc].value.task, 0);
      assert View() == Reacted(s, desc, r);
      return true;
    }
  }
}
