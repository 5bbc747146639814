/** What the user calls of src/tcp.rs hand back to their callers, against what they do to the connection: the bytes of
    `receive`, the counts of `send`, the descriptors of `accept`, and the verdicts of the others. */
module TcpCalls {
  import opened Wrappers
  import opened Words
  import opened Inet
  import opened TcpPcb
  import opened TcpTable
  import opened TcpOps
  import opened TcpRefine
  import opened TcpHosts
  import C = TcpConn
  import N = TcpStream

  /** Nothing happened to any block but `d`. */
  ghost predicate OthersStay(s: Sys, t: Sys, d: nat) {
    |t.pcbs| == |s.pcbs| && forall j: nat :: j < |s.pcbs| && j != d ==> t.pcbs[j] == s.pcbs[j]
  }

  // ---------------------------------------------------------------- receive

  /** What `receive` returns and what it leaves make up what was buffered; it returns no more than fits, and where it
      reads at all, as much as fits. Nothing is sent, and no other block is touched. */
  lemma ReceiveHandsOut(s: Sys, d: nat, room: nat)
    requires ReceiveOutcome(s, d, room).Received?
    ensures Live(s.pcbs, d) && Live(Do(s, ReceiveOp(d, room)).pcbs, d)
    ensures var bytes, p, q := ReceiveOutcome(s, d, room).bytes, s.pcbs[d].value,
                               Do(s, ReceiveOp(d, room)).pcbs[d].value;
      && |bytes| <= room && bytes + q.buf == p.buf && q.state == p.state
      && (p.state in {Established, FinWait1, FinWait2, CloseWait} ==> |bytes| == Min(room, |p.buf|))
    ensures OthersStay(s, Do(s, ReceiveOp(d, room)), d) && Do(s, ReceiveOp(d, room)).wire == s.wire
  {
  }

  /** When it fails, and when it waits; then nothing changes. */
  lemma ReceiveWaitsIff(s: Sys, d: nat, room: nat)
    ensures ReceiveOutcome(s, d, room) == ReceiveError <==>
      !Live(s.pcbs, d) || s.pcbs[d].value.state in {Closed, Listen, SynSent, SynReceived}
    ensures ReceiveOutcome(s, d, room) == ReceiveBlocked <==>
      Live(s.pcbs, d) && s.pcbs[d].value.state in {Established, FinWait1, FinWait2} && s.pcbs[d].value.buf == []
    ensures !ReceiveOutcome(s, d, room).Received? ==>
      OthersStay(s, Do(s, ReceiveOp(d, room)), d) && Do(s, ReceiveOp(d, room)).pcbs == s.pcbs
  {
  }

  /** A reader with room is told that the stream has ended exactly in CLOSE_WAIT when all is read, and in CLOSING,
      LAST_ACK and TIME_WAIT in any case: text that is still buffered then is never handed out. */
  lemma EndOfStreamIff(s: Sys, d: nat, room: nat)
    requires room > 0
    ensures ReceiveOutcome(s, d, room) == Received([]) <==>
      Live(s.pcbs, d) && (s.pcbs[d].value.state in {Closing, LastAck, TimeWait}
                          || (s.pcbs[d].value.state == CloseWait && s.pcbs[d].value.buf == []))
  {
  }

  // ---------------------------------------------------------------- send

  /** A packet of the block with this text at SND.NXT. */
  predicate CarriesText(pk: Packet, p: Pcb, text: seq<u8>) {
    && pk.src == p.local && pk.dst == p.remote && pk.seg.sn == p.snd.nxt && pk.seg.data == text
    && pk.seg.flg.ack && !pk.seg.flg.rst && !pk.seg.flg.syn && !pk.seg.flg.fin
    && pk.seg.ack == p.rcv.nxt && pk.seg.wnd == p.rcv.wnd
  }

  /** A count that `send` reports is that of the bytes it wrote: the first ones of what was left. They are on the wire
      at the old SND.NXT, which moves past them, and they are the last entry of the queue. They fit the segment size
      and the window, and they are as many as do. */
  lemma SendReportsWhatItWrote(s: Sys, d: nat, rest: seq<u8>, now: nat)
    requires SendOutcome(s, d, rest).Sent?
    ensures Live(s.pcbs, d) && Live(Do(s, SendOp(d, rest, now)).pcbs, d) && SendOutcome(s, d, rest).count <= |rest|
    ensures var n, p, q := SendOutcome(s, d, rest).count, s.pcbs[d].value, Do(s, SendOp(d, rest, now)).pcbs[d].value;
      && q.snd.nxt == Add32(p.snd.nxt, n) && n <= p.mss && Sub32(q.snd.nxt, q.snd.una) <= p.snd.wnd
      && (n == |rest| || n == p.mss || Sub32(q.snd.nxt, q.snd.una) == p.snd.wnd)
      && (n > 0 ==> q.queue == p.queue + [QueueEntry(now, now, 200_000_000, p.snd.nxt, ACK_PSH, rest[..n])])
    ensures var n := SendOutcome(s, d, rest).count;
      exists pk :: pk in Do(s, SendOp(d, rest, now)).wire && CarriesText(pk, s.pcbs[d].value, rest[..n])
    ensures OthersStay(s, Do(s, SendOp(d, rest, now)), d)
  {
    var n, p := SendOutcome(s, d, rest).count, s.pcbs[d].value;
    assert CarriesText(Transmit(p, ACK_PSH, rest[..n]), p, rest[..n]);
  }

  /** When it fails, is done, or waits for the window; then nothing changes. */
  lemma SendWaitsIff(s: Sys, d: nat, rest: seq<u8>, now: nat)
    ensures SendOutcome(s, d, rest) == SendError <==>
      !Live(s.pcbs, d) || s.pcbs[d].value.state !in {Established, CloseWait}
    ensures SendOutcome(s, d, rest) == SendDone <==>
      Live(s.pcbs, d) && s.pcbs[d].value.state in {Established, CloseWait} && rest == []
    ensures SendOutcome(s, d, rest) == SendBlocked <==>
      && Live(s.pcbs, d) && s.pcbs[d].value.state in {Established, CloseWait} && rest != []
      && s.pcbs[d].value.snd.wnd <= Sub32(s.pcbs[d].value.snd.nxt, s.pcbs[d].value.snd.una)
    ensures !SendOutcome(s, d, rest).Sent? ==>
      Do(s, SendOp(d, rest, now)).pcbs == s.pcbs && Do(s, SendOp(d, rest, now)).wire == s.wire
  {
  }

  // ---------------------------------------------------------------- results along a run

  /** The bytes that an operation hands to a reader of the followed block, read off its result. */
  ghost function HandedOut(h: Host, op: Op): seq<u8> {
    if Present(h.sys, h.slot, h.task) && op.ReceiveOp? && op.desc == h.slot then
      var r := ReceiveOutcome(h.sys, op.desc, op.room);
      if r.Received? then r.bytes else []
    else []
  }

  /** The count that an operation reports to a writer of the followed block. */
  ghost function Reported(h: Host, op: Op): nat {
    if Present(h.sys, h.slot, h.task) && op.SendOp? && op.desc == h.slot then
      var r := SendOutcome(h.sys, op.desc, op.rest);
      if r.Sent? then r.count else 0
    else 0
  }

  /** The bytes of the caller that this count covers. */
  ghost function TakenIn(h: Host, op: Op): seq<u8> {
    if op.SendOp? && Reported(h, op) <= |op.rest| then op.rest[..Reported(h, op)] else []
  }

  predicate Calls(ev: Event) {
    ev.UserSend? || ev.UserReceive?
  }

  lemma {:induction false} ThroughKeepsBytes(c: Conn, evs: seq<Event>)
    requires forall ev :: ev in evs ==> !Calls(ev)
    ensures Through(c, evs).h.read == c.h.read && Through(c, evs).h.written == c.h.written
    decreases |evs|
  {
    if evs != [] {
      assert !Calls(evs[0]);
      ThroughKeepsBytes(C.Next(c, evs[0]), evs[1..]);
    }
  }

  /** Only `send` and `receive` on the block hand it those events. */
  lemma OnlyCallsCall(s: Sys, op: Op, i: nat)
    requires Live(s.pcbs, i) && !((op.SendOp? || op.ReceiveOp?) && op.desc == i)
    ensures forall ev :: ev in EventsAt(s, op, i) ==> !Calls(ev)
  {
  }

  lemma PresentRecords(h: Host, op: Op)
    requires HostInv(h) && Present(h.sys, h.slot, h.task)
    ensures var y := Through(h.x, EventsAt(h.sys, op, h.slot)).h;
      y.read == h.x.h.read + HandedOut(h, op) && y.written == h.x.h.written + TakenIn(h, op)
  {
    var evs := EventsAt(h.sys, op, h.slot);
    if (op.SendOp? || op.ReceiveOp?) && op.desc == h.slot {
      ThroughOne(h.x, evs[0]);
    } else {
      OnlyCallsCall(h.sys, op, h.slot);
      ThroughKeepsBytes(h.x, evs);
    }
  }

  lemma ReportedFits(h: Host, op: Op)
    requires op.SendOp?
    ensures Reported(h, op) <= |op.rest|
  {
  }

  /** The history of the followed block records exactly the results of the calls on it. */
  lemma StepRecords(h: Host, op: Op)
    requires HostInv(h)
    ensures Recorded(h, HostStep(h, op), HandedOut(h, op), TakenIn(h, op))
  {
    if Present(h.sys, h.slot, h.task) {
      PresentRecords(h, op);
    } else if Present(Do(h.sys, op), h.slot, h.task) {
      BirthRecords(h, op);
    }
  }

  lemma BirthRecords(h: Host, op: Op)
    requires HostInv(h) && !Present(h.sys, h.slot, h.task) && Present(Do(h.sys, op), h.slot, h.task)
    ensures N.Acted(h.x, Birth(h.sys, op)).h.read == h.x.h.read == []
    ensures N.Acted(h.x, Birth(h.sys, op)).h.written == h.x.h.written == []
  {
    if Live(h.sys.pcbs, h.slot) {
      SurvivorTask(h.sys, op, h.slot);
    } else {
      NewbornFollows(h.sys, h.cs, op, h.slot);
    }
  }

  function Side(n: Pair, atA: bool): Host {
    if atA then n.a else n.b
  }

  /** What one turn hands to readers, takes from writers and reports to them, at the followed block of one side. */
  ghost function OutAt(n: Pair, turn: Turn, atA: bool): seq<u8> {
    if turn.OnA? == atA then HandedOut(Side(n, atA), turn.op) else []
  }

  ghost function InAt(n: Pair, turn: Turn, atA: bool): seq<u8> {
    if turn.OnA? == atA then TakenIn(Side(n, atA), turn.op) else []
  }

  ghost function CountAt(n: Pair, turn: Turn, atA: bool): nat {
    if turn.OnA? == atA then Reported(Side(n, atA), turn.op) else 0
  }

  ghost function Outs(t: seq<Pair>, ts: seq<Turn>, atA: bool): seq<seq<u8>>
    requires |ts| <= |t|
  {
    seq(|ts|, m requires 0 <= m < |ts| => OutAt(t[m], ts[m], atA))
  }

  ghost function Ins(t: seq<Pair>, ts: seq<Turn>, atA: bool): seq<seq<u8>>
    requires |ts| <= |t|
  {
    seq(|ts|, m requires 0 <= m < |ts| => InAt(t[m], ts[m], atA))
  }

  ghost function Counts(t: seq<Pair>, ts: seq<Turn>, atA: bool): seq<nat>
    requires |ts| <= |t|
  {
    seq(|ts|, m requires 0 <= m < |ts| => CountAt(t[m], ts[m], atA))
  }

  /** The first `i` pieces, one after the other. */
  function Joint<T>(pieces: seq<seq<T>>, i: nat): seq<T>
    requires i <= |pieces|
  {
    if i == 0 then [] else Joint(pieces, i - 1) + pieces[i - 1]
  }

  /** All bytes that the calls of `receive` on the followed block of one side have returned so far. */
  ghost function ReadBy(t: seq<Pair>, ts: seq<Turn>, i: nat, atA: bool): seq<u8>
    requires i <= |ts| <= |t|
  {
    Joint(Outs(t, ts, atA), i)
  }

  /** All bytes that its calls of `send` have reported as written so far. */
  ghost function WrittenBy(t: seq<Pair>, ts: seq<Turn>, i: nat, atA: bool): seq<u8>
    requires i <= |ts| <= |t|
  {
    Joint(Ins(t, ts, atA), i)
  }

  lemma TurnRecords(n: Pair, turn: Turn, succ: Pair, atA: bool)
    requires PairInv(n) && Turns(n, turn, succ)
    ensures Recorded(Side(n, atA), Side(succ, atA), OutAt(n, turn, atA), InAt(n, turn, atA))
  {
    SideTurns(n, turn, succ, atA);
    if turn.OnA? == atA {
      StepRecords(Side(n, atA), turn.op);
    }
  }

  lemma SideTurns(n: Pair, turn: Turn, succ: Pair, atA: bool)
    requires PairInv(n) && Turns(n, turn, succ)
    ensures HostInv(Side(n, atA))
    ensures Side(succ, atA) == if turn.OnA? == atA then HostStep(Side(n, atA), turn.op) else Side(n, atA)
  {
  }

  /** The followed block gained these bytes read and written. */
  predicate Recorded(h: Host, k: Host, out: seq<u8>, written: seq<u8>) {
    k.x.h.read == h.x.h.read + out && k.x.h.written == h.x.h.written + written
  }

  ghost function Histories(t: seq<Pair>, atA: bool): seq<C.Hist> {
    seq(|t|, m requires 0 <= m < |t| => Side(t[m], atA).x.h)
  }

  /** Step `m` of a history gains exactly these bytes. */
  predicate Gains(xs: seq<C.Hist>, outs: seq<seq<u8>>, ins: seq<seq<u8>>, m: nat)
    requires m < |outs| == |ins| < |xs|
  {
    xs[m + 1].read == xs[m].read + outs[m] && xs[m + 1].written == xs[m].written + ins[m]
  }

  lemma GainsAt(t: seq<Pair>, ts: seq<Turn>, m: nat, atA: bool)
    requires IsPairRun(t, ts) && m < |ts|
    ensures Gains(Histories(t, atA), Outs(t, ts, atA), Ins(t, ts, atA), m)
  {
    PairRunKeeps(t, ts, m);
    TurnRecords(t[m], ts[m], t[m + 1], atA);
  }

  lemma {:induction false} GainsJoin(xs: seq<C.Hist>, outs: seq<seq<u8>>, ins: seq<seq<u8>>, i: nat)
    requires |xs| == |outs| + 1 == |ins| + 1 && i < |xs| && xs[0] == C.NO_HIST
    requires forall m: nat :: m < |outs| ==> Gains(xs, outs, ins, m)
    ensures xs[i].read == Joint(outs, i) && xs[i].written == Joint(ins, i)
  {
    if i > 0 {
      GainsJoin(xs, outs, ins, i - 1);
      assert Gains(xs, outs, ins, i - 1);
    }
  }

  /** The history is the concatenation of the results. */
  lemma HistoryIsResults(t: seq<Pair>, ts: seq<Turn>, i: nat, atA: bool)
    requires IsPairRun(t, ts) && i < |t|
    ensures Side(t[i], atA).x.h.read == ReadBy(t, ts, i, atA)
    ensures Side(t[i], atA).x.h.written == WrittenBy(t, ts, i, atA)
  {
    var xs, outs, ins := Histories(t, atA), Outs(t, ts, atA), Ins(t, ts, atA);
    forall m: nat | m < |outs|
      ensures Gains(xs, outs, ins, m)
    {
      GainsAt(t, ts, m, atA);
    }
    GainsJoin(xs, outs, ins, i);
  }

  /** What the followed block still buffers, if it is in its table. */
  function Buffered(h: Host): seq<u8> {
    if Present(h.sys, h.slot, h.task) then h.sys.pcbs[h.slot].value.buf else []
  }

  /** Stream safety in terms of the calls: whatever else runs on either host, the bytes that `receive` returned on the
      one side, followed by what its block buffers, are a prefix of the bytes that `send` reported as written on the
      other. */
  lemma CallsDeliverStreams(t: seq<Pair>, ts: seq<Turn>, i: nat, atA: bool)
    requires IsPairRun(t, ts) && i < |t|
    ensures ReadBy(t, ts, i, atA) + Buffered(Side(t[i], atA)) <= WrittenBy(t, ts, i, !atA)
  {
    HistoryIsResults(t, ts, i, atA);
    HistoryIsResults(t, ts, i, !atA);
    TablesDeliverStreams(t, ts, i);
  }

  // ---------------------------------------------------------------- the passes of one `send`

  function Sum(counts: seq<nat>, i: nat, j: nat): nat
    requires i <= j <= |counts|
    decreases j
  {
    if i == j then 0 else Sum(counts, i, j - 1) + counts[j - 1]
  }

  /** Between the two moments only one call writes to the block: each of its passes goes on with what is left of `data`
      after the counts so far. */
  ghost predicate OneCall(t: seq<Pair>, ts: seq<Turn>, i: nat, j: nat, atA: bool, data: seq<u8>)
    requires i <= j <= |ts| <= |t|
  {
    forall m {:trigger ts[m]} :: i <= m < j ==> GoesOn(t[m], ts[m], atA, data, Sum(Counts(t, ts, atA), i, m))
  }

  /** A turn that is a pass of `send` on the followed block finds that `k` bytes of `data` are done. */
  predicate GoesOn(n: Pair, turn: Turn, atA: bool, data: seq<u8>, k: nat) {
    turn.OnA? == atA && turn.op.SendOp? && turn.op.desc == Side(n, atA).slot ==>
      k <= |data| && turn.op.rest == data[k..]
  }

  /** Then it takes the next bytes of `data`, as many as it reports. */
  lemma PassTakes(n: Pair, turn: Turn, atA: bool, data: seq<u8>, k: nat)
    requires k <= |data| && GoesOn(n, turn, atA, data, k)
    ensures k + CountAt(n, turn, atA) <= |data|
    ensures InAt(n, turn, atA) == data[k..k + CountAt(n, turn, atA)]
  {
    if turn.OnA? == atA && turn.op.SendOp? && turn.op.desc == Side(n, atA).slot {
      ReportedFits(Side(n, atA), turn.op);
      assert data[k..][..CountAt(n, turn, atA)] == data[k..k + CountAt(n, turn, atA)];
    }
  }

  /** Piece `m` is the next part of `data` after the counts so far. */
  predicate Follows(ins: seq<seq<u8>>, counts: seq<nat>, i: nat, m: nat, data: seq<u8>)
    requires i <= m < |ins| == |counts|
  {
    var k := Sum(counts, i, m);
    k <= |data| ==> k + counts[m] <= |data| && ins[m] == data[k..k + counts[m]]
  }

  /** Pieces that follow one another in `data` make up a prefix of it. */
  lemma {:induction false} PiecesJoin(ins: seq<seq<u8>>, counts: seq<nat>, i: nat, j: nat, data: seq<u8>)
    requires i <= j <= |ins| == |counts|
    requires forall m: nat :: i <= m < j ==> Follows(ins, counts, i, m, data)
    ensures Sum(counts, i, j) <= |data| && Joint(ins, j) == Joint(ins, i) + data[..Sum(counts, i, j)]
    decreases j
  {
    if i < j {
      PiecesJoin(ins, counts, i, j - 1, data);
      assert Follows(ins, counts, i, j - 1, data);
      PieceJoins(Joint(ins, i), data, Sum(counts, i, j - 1), counts[j - 1]);
    }
  }

  lemma PieceJoins(before: seq<u8>, data: seq<u8>, k: nat, n: nat)
    requires k + n <= |data|
    ensures before + data[..k] + data[k..k + n] == before + data[..k + n]
  {
  }

  /** A call of `send` over `data` whose passes report `k` bytes in all has written exactly the first `k` bytes. */
  lemma SendWritesItsCount(t: seq<Pair>, ts: seq<Turn>, i: nat, j: nat, atA: bool, data: seq<u8>)
    requires i <= j <= |ts| <= |t| && OneCall(t, ts, i, j, atA, data)
    ensures Sum(Counts(t, ts, atA), i, j) <= |data|
    ensures WrittenBy(t, ts, j, atA) == WrittenBy(t, ts, i, atA) + data[..Sum(Counts(t, ts, atA), i, j)]
  {
    var ins, counts := Ins(t, ts, atA), Counts(t, ts, atA);
    forall m: nat | i <= m < j
      ensures Follows(ins, counts, i, m, data)
    {
      var turn := ts[m];
      if Sum(counts, i, m) <= |data| {
        PassTakes(t[m], turn, atA, data, Sum(counts, i, m));
      }
    }
    PiecesJoin(ins, counts, i, j, data);
  }
}
