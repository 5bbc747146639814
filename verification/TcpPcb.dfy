/** One TCP connection block of src/tcp.rs and what each locked section does to it.

    Every function here takes the block as it stands when the lock is taken and returns the block as it
    stands when the lock is released, together with the packets handed to `ip::output` and the wake-ups
    that were raised. The clock, the initial sequence number and the verdict of `ip::output` are inputs.
 */
module TcpPcb {
  import opened Wrappers
  import opened Words
  import opened Inet

  const RECV_BUF_SIZE := 65535
  const DEFAULT_RTO := 200_000_000          // nanoseconds
  const RETRANS_DEADLINE := 12_000_000_000
  const TIMEWAIT := 30_000_000_000

  datatype State =
    | Closed | Listen | SynSent | SynReceived | Established | FinWait1
    | FinWait2 | CloseWait | Closing | LastAck | TimeWait

  datatype Mode = Rfc | Socket

  datatype Flags = Flags(fin: bool, syn: bool, rst: bool, psh: bool, ack: bool, urg: bool)

  const SYN := Flags(false, true, false, false, false, false)
  const SYN_ACK := Flags(false, true, false, false, true, false)
  const ACK := Flags(false, false, false, false, true, false)
  const ACK_PSH := Flags(false, false, false, true, true, false)
  const ACK_FIN := Flags(true, false, false, false, true, false)
  const RST := Flags(false, false, true, false, false, false)
  const RST_ACK := Flags(false, false, true, false, true, false)

  /** Text of one segment: the 16-bit IP total length bounds it. */
  type Payload = s: seq<u8> | |s| <= 65535 witness []

  datatype Segment = Segment(sn: u32, ack: u32, flg: Flags, wnd: u16, data: Payload)
  {
    /** SEG.LEN: text plus one for SYN and one for FIN. */
    function Len(): u32 {
      |data| + (if flg.syn then 1 else 0) + (if flg.fin then 1 else 0)
    }
  }

  datatype Packet = Packet(src: Endpoint, dst: Endpoint, seg: Segment)

  datatype QueueEntry = QueueEntry(first: nat, last: nat, rto: nat, sn: u32, flg: Flags, data: Payload)
  {
    /** Sequence space the entry occupies. */
    function Consume(): u32 {
      |data| + (if flg.syn || flg.fin then 1 else 0)
    }

    function End(): u32 {
      Add32(sn, Consume())
    }
  }

  datatype SndVars = SndVars(nxt: u32, una: u32, wnd: u16, wl1: u32, wl2: u32)

  datatype RcvVars = RcvVars(nxt: u32, wnd: u16)

  datatype Pcb = Pcb(
    state: State, mode: Mode, local: Endpoint, remote: Endpoint, snd: SndVars, iss: u32, rcv: RcvVars, irs: u32,
    mss: u16, buf: seq<u8>, queue: seq<QueueEntry>, twTimer: nat, parent: Option<nat>, backlog: seq<nat>,
    backlogMax: nat, task: nat)

  function EmptyPcb(task: nat): Pcb {
    Pcb(Closed, Rfc, WILDCARD, WILDCARD, SndVars(0, 0, 0, 0, 0), 0, RcvVars(0, 0), 0, 0, [], [], 0, None, [], 0, task)
  }

  /** What a locked section leaves behind: the block, the packets sent, how often the block's own task was
      notified, whether `pcb_release` follows, and whether the block joins its parent's backlog. */
  datatype Reaction = Reaction(pcb: Pcb, sent: set<Packet>, notices: nat, release: bool, join: bool)

  function Quiet(p: Pcb): Reaction {
    Reaction(p, {}, 0, false, false)
  }

  // ---------------------------------------------------------------- output and retransmission queue

  /** The packet `output` hands down. */
  function Transmit(p: Pcb, flg: Flags, data: Payload): Packet {
    Packet(p.local, p.remote, Segment(if flg.syn then p.iss else p.snd.nxt, p.rcv.nxt, flg, p.rcv.wnd, data))
  }

  /** The block after `output`: anything that takes sequence space is queued for retransmission. */
  function Output(p: Pcb, flg: Flags, data: Payload, now: nat): Pcb {
    if flg.syn || flg.fin || data != [] then
      p.(queue := p.queue + [QueueEntry(now, now, DEFAULT_RTO, if flg.syn then p.iss else p.snd.nxt, flg, data)])
    else
      p
  }

  function Reset(sn: u32, local: Endpoint, remote: Endpoint): Packet {
    Packet(local, remote, Segment(sn, 0, RST, 0, []))
  }

  /** retrans_queue_cleanup */
  function Cleanup(q: seq<QueueEntry>, una: u32): seq<QueueEntry> {
    if q == [] || una < q[0].End() then q else Cleanup(q[1..], una)
  }

  predicate Due(e: QueueEntry, now: nat) {
    now >= e.last + e.rto
  }

  /** One queue entry under one pass of retrans_emit. */
  function Fire(e: QueueEntry, now: nat): QueueEntry {
    if Due(e, now) then e.(last := now, rto := 2 * e.rto) else e
  }

  function Resend(p: Pcb, e: QueueEntry): Packet {
    Packet(p.local, p.remote, Segment(e.sn, p.rcv.nxt, e.flg, p.rcv.wnd, e.data))
  }

  predicate Expired(q: seq<QueueEntry>, now: nat) {
    exists e :: e in q && now >= e.first + RETRANS_DEADLINE
  }

  /** The block's share of one timer run. */
  function Tick(p: Pcb, now: nat): Reaction {
    if p.state == TimeWait && now > p.twTimer then
      Reaction(p.(state := Closed), {}, 0, true, false)
    else if Expired(p.queue, now) then
      Reaction(p.(state := Closed), {}, 1, false, false)
    else
      Reaction(p.(queue := seq(|p.queue|, i requires 0 <= i < |p.queue| => Fire(p.queue[i], now))),
               set e | e in p.queue && Due(e, now) :: Resend(p, e), 0, false, false)
  }

  // ---------------------------------------------------------------- SEGMENT ARRIVES

  /** The answer to a segment for which no block (or a closed one) was found. */
  function Refuse(seg: Segment, local: Endpoint, remote: Endpoint): set<Packet> {
    if seg.flg.rst then {}
    else if !seg.flg.ack then {Packet(local, remote, Segment(0, Add32(seg.sn, seg.Len()), RST_ACK, 0, []))}
    else {Reset(seg.ack, local, remote)}
  }

  /** LISTEN, third check: the block that takes the SYN enters SYN_RECEIVED. */
  function TakeSyn(p: Pcb, seg: Segment, local: Endpoint, remote: Endpoint, isn: u32, now: nat): Pcb {
    var q := p.(local := local, remote := remote, rcv := RcvVars(Add32(seg.sn, 1), RECV_BUF_SIZE), irs := seg.sn,
                iss := isn);
    Output(q, SYN_ACK, [], now).(snd := q.snd.(nxt := Add32(isn, 1), una := isn), state := SynReceived)
  }

  /** The SYN|ACK sent by `TakeSyn`. */
  function SynAckOf(p: Pcb): Packet {
    Transmit(p, SYN_ACK, [])
  }

  function OnListen(p: Pcb, seg: Segment, local: Endpoint, remote: Endpoint, isn: u32, now: nat): Reaction {
    if seg.flg.rst then Quiet(p)
    else if seg.flg.ack then Reaction(p, {Reset(seg.ack, local, remote)}, 0, false, false)
    else if seg.flg.syn && p.mode == Rfc then
      var q := TakeSyn(p, seg, local, remote, isn, now);
      Reaction(q, {SynAckOf(q)}, 0, false, false)
    else Quiet(p)
  }

  /** A listener in socket mode answers this segment by creating a child block. */
  predicate Spawns(p: Pcb, seg: Segment) {
    p.state == Listen && p.mode == Socket && !seg.flg.rst && !seg.flg.ack && seg.flg.syn && |p.backlog| < p.backlogMax
  }

  function OnSynSent(p: Pcb, seg: Segment, local: Endpoint, remote: Endpoint, now: nat): Reaction {
    if seg.flg.ack && (seg.ack <= p.iss || seg.ack > p.snd.nxt) then
      Reaction(p, {Reset(seg.ack, local, remote)}, 0, false, false)
    else
      var acceptable := seg.flg.ack && p.snd.una <= seg.ack <= p.snd.nxt;
      if seg.flg.rst then
        if acceptable then Reaction(p.(state := Closed), {}, 0, true, false) else Quiet(p)
      else if seg.flg.syn then
        var q := p.(rcv := p.rcv.(nxt := Add32(seg.sn, 1)), irs := seg.sn);
        var q := if acceptable then q.(snd := q.snd.(una := seg.ack), queue := Cleanup(q.queue, seg.ack)) else q;
        if q.snd.una > q.iss then
          Reaction(q.(state := Established, snd := q.snd.(wnd := seg.wnd, wl1 := seg.sn, wl2 := seg.ack)),
                   {Transmit(q, ACK, [])}, 1, false, false)
        else
          Reaction(Output(q.(state := SynReceived), SYN_ACK, [], now), {SynAckOf(q)}, 0, false, false)
      else Quiet(p)
  }

  /** First check of the synchronized states, with the plain u32 comparisons of the source. */
  predicate Acceptable(rcv: RcvVars, seg: Segment) {
    var top := Add32(rcv.nxt, rcv.wnd);
    if seg.Len() == 0 then
      if rcv.wnd == 0 then seg.sn == rcv.nxt else rcv.nxt <= seg.sn < top
    else if rcv.wnd == 0 then false
    else
      var last := Sub32(Add32(seg.sn, seg.Len()), 1);
      rcv.nxt <= seg.sn < top || rcv.nxt <= last < top
  }

  /** The segment gets past the first four checks: acceptable, no RST, no SYN, an ACK. */
  predicate Passes(p: Pcb, seg: Segment) {
    Acceptable(p.rcv, seg) && !seg.flg.rst && !seg.flg.syn && seg.flg.ack
  }

  datatype Verdict = Continue | Stop | Release

  datatype Stage = Stage(pcb: Pcb, sent: set<Packet>, notices: nat, join: bool, verdict: Verdict)

  /** A new ACK: advance SND.UNA, trim the queue, take the window if the segment is newer. */
  function TakeAck(p: Pcb, seg: Segment): Pcb {
    var newer := p.snd.wl1 < seg.sn || (p.snd.wl1 == seg.sn && p.snd.wl2 <= seg.ack);
    var snd := p.snd.(una := seg.ack);
    p.(snd := if newer then snd.(wnd := seg.wnd, wl1 := seg.sn, wl2 := seg.ack) else snd,
       queue := Cleanup(p.queue, seg.ack))
  }

  /** The FIN of a FIN_WAIT1 block is acknowledged. */
  function NoteFinAcked(p: Pcb, seg: Segment): Pcb {
    if p.state == FinWait1 && seg.ack == p.snd.nxt then p.(state := FinWait2) else p
  }

  /** Fifth check, in ESTABLISHED, CLOSE_WAIT, FIN_WAIT1 and FIN_WAIT2. */
  function AckOpen(p: Pcb, seg: Segment, opening: bool): Stage {
    var notices := if opening then 1 else 0;
    if p.snd.una < seg.ack <= p.snd.nxt then Stage(NoteFinAcked(TakeAck(p, seg), seg), {}, notices, opening, Continue)
    else if seg.ack < p.snd.una then Stage(NoteFinAcked(p, seg), {}, notices, opening, Continue)
    else if p.snd.nxt < seg.ack then Stage(p, {Transmit(p, ACK, [])}, notices, false, Stop)
    else Stage(NoteFinAcked(p, seg), {}, notices, opening, Continue)
  }

  /** Fifth check: the ACK field. */
  function AckStage(p: Pcb, seg: Segment, local: Endpoint, remote: Endpoint, now: nat): Stage {
    match p.state
    case SynReceived =>
      if p.snd.una <= seg.ack <= p.snd.nxt then AckOpen(p.(state := Established), seg, true)
      else Stage(p, {Reset(seg.ack, local, remote)}, 0, false, Stop)
    case Established => AckOpen(p, seg, false)
    case CloseWait => AckOpen(p, seg, false)
    case FinWait1 => AckOpen(p, seg, false)
    case FinWait2 => AckOpen(p, seg, false)
    case Closing =>
      if seg.ack == p.snd.nxt then Stage(p.(state := TimeWait, twTimer := now + TIMEWAIT), {}, 1, false, Continue)
      else Stage(p, {}, 0, false, Continue)
    case LastAck =>
      if seg.ack == p.snd.nxt then Stage(p.(state := Closed), {}, 0, false, Release)
      else Stage(p, {}, 0, false, Stop)
    case TimeWait =>
      Stage(if seg.flg.fin then p.(twTimer := now + TIMEWAIT) else p, {}, 0, false, Continue)
    case _ => Stage(p, {}, 0, false, Continue)
  }

  predicate TakesText(s: State) {
    s == Established || s == FinWait1 || s == FinWait2
  }

  /** Seventh check: segment text. */
  function TextStage(p: Pcb, seg: Segment): Stage {
    if !TakesText(p.state) || seg.data == [] then Stage(p, {}, 0, false, Continue)
    else if p.rcv.nxt != seg.sn || p.rcv.wnd < |seg.data| then Stage(p, {Transmit(p, ACK, [])}, 0, false, Stop)
    else
      var q := p.(buf := p.buf + seg.data,
                  rcv := RcvVars(Add32(seg.sn, |seg.data|), p.rcv.wnd - |seg.data|));
      Stage(q, {Transmit(q, ACK, [])}, 1, false, Continue)
  }

  /** Eighth check: the FIN bit. */
  function FinStage(p: Pcb, seg: Segment, now: nat): Stage {
    if !seg.flg.fin || p.state == Closed || p.state == Listen then Stage(p, {}, 0, false, Continue)
    else
      var q := p.(rcv := p.rcv.(nxt := Add32(seg.sn, 1)));
      var r :=
        match q.state
        case SynReceived => q.(state := CloseWait)
        case Established => q.(state := CloseWait)
        case FinWait1 =>
          if seg.ack == q.snd.nxt then q.(state := TimeWait, twTimer := now + TIMEWAIT) else q.(state := Closing)
        case FinWait2 => q.(state := TimeWait, twTimer := now + TIMEWAIT)
        case _ => q;
      Stage(r, {Transmit(q, ACK, [])}, if r.state == CloseWait && q.state != CloseWait then 1 else 0, false, Continue)
  }

  /** The checks after the ACK field, run on the block the ACK left. */
  function AfterAck(a: Stage, seg: Segment, now: nat): Reaction {
    var t := TextStage(a.pcb, seg);
    if t.verdict == Stop then Reaction(t.pcb, a.sent + t.sent, a.notices + t.notices, false, a.join)
    else
      var f := FinStage(t.pcb, seg, now);
      Reaction(f.pcb, a.sent + t.sent + f.sent, a.notices + t.notices + f.notices, false, a.join)
  }

  /** SEGMENT ARRIVES in every state but CLOSED, LISTEN and SYN_SENT. */
  function OnSynchronized(p: Pcb, seg: Segment, local: Endpoint, remote: Endpoint, now: nat): Reaction {
    if !Acceptable(p.rcv, seg) then
      if seg.flg.rst then Quiet(p) else Reaction(p, {Transmit(p, ACK, [])}, 0, false, false)
    else if seg.flg.rst then Reaction(p.(state := Closed), {}, 0, true, false)
    else if seg.flg.syn then Reaction(p.(state := Closed), {Transmit(p, RST, [])}, 0, true, false)
    else if !seg.flg.ack then Quiet(p)
    else
      var a := AckStage(p, seg, local, remote, now);
      match a.verdict
      case Stop => Reaction(a.pcb, a.sent, a.notices, false, false)
      case Release => Reaction(a.pcb, a.sent, a.notices, true, false)
      case Continue => AfterAck(a, seg, now)
  }

  /** SEGMENT ARRIVES for the selected block. */
  function Arrive(p: Pcb, seg: Segment, local: Endpoint, remote: Endpoint, isn: u32, now: nat): Reaction {
    match p.state
    case Closed => Reaction(p, Refuse(seg, local, remote), 0, false, false)
    case Listen => OnListen(p, seg, local, remote, isn, now)
    case SynSent => OnSynSent(p, seg, local, remote, now)
    case _ => OnSynchronized(p, seg, local, remote, now)
  }

  // ---------------------------------------------------------------- user calls

  /** The part of `open` (active) and `connect` that sends the SYN. */
  function StartConnect(p: Pcb, local: Endpoint, remote: Endpoint, isn: u32, delivered: bool, now: nat): Reaction {
    var q := p.(local := local, remote := remote, rcv := p.rcv.(wnd := RECV_BUF_SIZE), iss := isn);
    var r := Output(q, SYN, [], now);
    if !delivered then Reaction(r.(state := Closed), {Transmit(q, SYN, [])}, 0, false, false)
    else Reaction(r.(snd := r.snd.(una := isn, nxt := Add32(isn, 1)), state := SynSent), {Transmit(q, SYN, [])},
                  0, false, false)
  }

  /** `close` on a block it can close; `CloseOk` is its result. */
  predicate CloseOk(s: State) {
    s == Listen || s == SynSent || s == SynReceived || s == Established || s == CloseWait
  }

  function Close(p: Pcb, now: nat): Reaction {
    match p.state
    case Listen => Reaction(p.(state := Closed), {}, 0, true, false)
    case SynSent => Reaction(p.(state := Closed), {}, 0, true, false)
    case SynReceived => SendFin(p, FinWait1, now)
    case Established => SendFin(p, FinWait1, now)
    case CloseWait => SendFin(p, LastAck, now)
    case _ => Quiet(p)
  }

  function SendFin(p: Pcb, next: State, now: nat): Reaction {
    var q := Output(p, ACK_FIN, [], now);
    Reaction(q.(snd := q.snd.(nxt := Add32(q.snd.nxt, 1)), state := next), {Transmit(p, ACK_FIN, [])}, 1, false, false)
  }

  predicate CanSend(s: State) {
    s == Established || s == CloseWait
  }

  function InFlight(p: Pcb): u32 {
    Sub32(p.snd.nxt, p.snd.una)
  }

  /** Room the peer's window leaves. */
  function Capacity(p: Pcb): u16 {
    if p.snd.wnd <= InFlight(p) then 0 else p.snd.wnd - InFlight(p)
  }

  /** The chunk that one pass of `send` takes from the text still to be written. */
  function Chunk(p: Pcb, rest: seq<u8>): Payload {
    if !CanSend(p.state) then [] else rest[..Min(p.mss, Min(|rest|, Capacity(p)))]
  }

  /** One locked pass of `send` over the text still to be written. */
  function Send(p: Pcb, rest: seq<u8>, now: nat): Reaction {
    if !CanSend(p.state) || rest == [] || Capacity(p) == 0 then Quiet(p)
    else
      var chunk := Chunk(p, rest);
      var q := Output(p, ACK_PSH, chunk, now);
      Reaction(q.(snd := q.snd.(nxt := Add32(q.snd.nxt, |chunk|))), {Transmit(p, ACK_PSH, chunk)}, 0, false, false)
  }

  predicate CanReceive(s: State) {
    s == Established || s == FinWait1 || s == FinWait2 || s == CloseWait
  }

  /** The bytes one locked pass of `receive` copies out. */
  function Taken(p: Pcb, room: nat): seq<u8> {
    if CanReceive(p.state) then p.buf[..Min(room, |p.buf|)] else []
  }

  /** One locked pass of `receive`; the u16 window addition wraps. */
  function Receive(p: Pcb, room: nat): Reaction {
    var n := |Taken(p, room)|;
    Quiet(if n == 0 then p else p.(buf := p.buf[n..], rcv := p.rcv.(wnd := (p.rcv.wnd + n) % 0x1_0000)))
  }

  // ---------------------------------------------------------------- everything that can happen to a block

  datatype Event =
    | Arrival(seg: Segment, local: Endpoint, remote: Endpoint, isn: u32, now: nat)
    | Timer(now: nat)
    | UserClose(now: nat)
    | UserSend(rest: seq<u8>, now: nat)
    | UserReceive(room: nat)
    | UserConnect(local: Endpoint, remote: Endpoint, isn: u32, delivered: bool, now: nat)
    | UserListen(local: Endpoint, remote: Endpoint, backlogMax: nat)
    | UserBind(local: Endpoint)
    | SetMode(mode: Mode)
    | SetMss(mss: u16)
    | SetParent(parent: nat)
    | Abort
    | Push(child: nat)
    | Pop

  /** One locked section, seen from the block it works on. */
  function Step(p: Pcb, ev: Event): Reaction {
    match ev
    case Arrival(seg, local, remote, isn, now) => Arrive(p, seg, local, remote, isn, now)
    case Timer(now) => Tick(p, now)
    case UserClose(now) => Close(p, now)
    case UserSend(rest, now) => Send(p, rest, now)
    case UserReceive(room) => Receive(p, room)
    case UserConnect(local, remote, isn, delivered, now) => StartConnect(p, local, remote, isn, delivered, now)
    case UserListen(local, remote, backlogMax) =>
      Quiet(p.(local := local, remote := remote, backlogMax := backlogMax, state := Listen))
    case UserBind(local) => Quiet(p.(local := local))
    case SetMode(mode) => Quiet(p.(mode := mode))
    case SetMss(mss) => Quiet(p.(mss := mss))
    case SetParent(parent) => Quiet(p.(parent := Some(parent)))
    case Abort => Quiet(p.(state := Closed))
    case Push(child) => Reaction(p.(backlog := p.backlog + [child]), {}, 1, false, false)
    case Pop => Quiet(if p.backlog == [] then p else p.(backlog := p.backlog[1..]))
  }
}
