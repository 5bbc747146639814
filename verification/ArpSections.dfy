/** The ARP cache at the granularity of its lock. `resolve` and `input` of src/arp.rs release the cache between
    looking an address up, or refreshing it, and inserting it. Inputs and the timer run one after the other on the one
    thread that dispatches interrupts, so only lookups of other threads come in between. */
module ArpSections {
  import opened Wrappers
  import opened Words
  import opened Inet
  import opened Arp

  /** The cache, the packet that the running input still has to insert, and the addresses that lookups, on any number of
      threads, found missing and still have to insert. */
  datatype Station = Station(cache: seq<Entry>, pending: Option<ArpPacket>, asked: multiset<IpAddr>)

  /** One section under the lock of the cache: the update and the insertion of an input, the lookup and the insertion of
      `resolve`, and the timer. `me` is the interface the packet came in on. */
  datatype Section =
    | Refresh(p: ArpPacket, me: Option<Iface>, now: nat)
    | Enter(now: nat)
    | Look(pa: IpAddr)
    | Await(pa: IpAddr, now: nat)
    | Sweep(now: nat)

  /** An input or a timer run starts only when the input before it is done; an insertion follows its lookup. */
  predicate Can(s: Station, sec: Section) {
    match sec
    case Refresh(_, _, _) => s.pending.None?
    case Enter(_) => s.pending.Some?
    case Look(_) => true
    case Await(pa, _) => pa in s.asked
    case Sweep(_) => s.pending.None?
  }

  function Resolution(p: ArpPacket, now: nat): Entry {
    Entry(Resolved, p.spa, p.sha, now)
  }

  function Awaited(pa: IpAddr, now: nat): Entry {
    Entry(Incomplete, pa, ETHER_ANY, now)
  }

  function SectionStep(s: Station, sec: Section): Station
    requires Can(s, sec)
  {
    match sec
    case Refresh(p, me, now) =>
      var missing := Find(s.cache, p.spa, 0).None? && me.Some? && me.value.pa == p.tpa;
      Station(Updated(s.cache, p.spa, p.sha, now), if missing then Some(p) else None, s.asked)
    case Enter(now) => Station(Inserted(s.cache, Resolution(s.pending.value, now)), None, s.asked)
    case Look(pa) => if Find(s.cache, pa, 0).None? then s.(asked := s.asked + multiset{pa}) else s
    case Await(pa, now) => Station(Inserted(s.cache, Awaited(pa, now)), s.pending, s.asked - multiset{pa})
    case Sweep(now) => s.(cache := Expire(s.cache, now))
  }

  /** What the most recent packet from `pa` said. */
  function Said(secs: seq<Section>, pa: IpAddr): Option<EtherAddr> {
    if secs == [] then None
    else
      var sec := secs[|secs| - 1];
      if sec.Refresh? && sec.p.spa == pa then Some(sec.p.sha) else Said(secs[..|secs| - 1], pa)
  }

  /** The sections that put a resolved entry into the cache. */
  predicate Resolves(sec: Section) {
    sec.Refresh? || sec.Enter?
  }

  /** Any interleaving, on a clock that advances between two sections of the inputs. The times of lookups and of the
      timer do not matter. */
  ghost predicate IsSectionRun(t: seq<Station>, secs: seq<Section>) {
    && |t| == |secs| + 1
    && t[0] == Station([], None, multiset{})
    && (forall i {:trigger secs[i]} :: 0 <= i < |secs| ==> Can(t[i], secs[i]) && t[i + 1] == SectionStep(t[i], secs[i]))
  }

  ghost predicate Ticks(secs: seq<Section>) {
    forall i, j :: 0 <= i < j < |secs| && Resolves(secs[i]) && Resolves(secs[j]) ==> secs[i].now < secs[j].now
  }

  // ---------------------------------------------------------------- the invariant

  /** Of several resolved entries for one address the earlier in the cache is the younger, and says what the most recent
      packet said. All of them are older than `now`. */
  ghost predicate Ordered(c: seq<Entry>, secs: seq<Section>, now: nat) {
    && |c| <= CACHE_SIZE
    && (forall i :: 0 <= i < |c| ==> c[i].state != Static)
    && (forall i :: 0 <= i < |c| && c[i].state == Resolved ==> c[i].timestamp < now)
    && (forall i, j :: 0 <= i < j < |c| && c[i].state == c[j].state == Resolved && c[i].pa == c[j].pa ==>
          c[i].timestamp > c[j].timestamp)
    && (forall i :: 0 <= i < |c| && First(c, i) ==> Said(secs, c[i].pa) == Some(c[i].ha))
  }

  /** The first resolved entry for its address. */
  predicate First(c: seq<Entry>, i: nat)
    requires i < |c|
  {
    c[i].state == Resolved && forall j :: 0 <= j < i ==> c[j].state != Resolved || c[j].pa != c[i].pa
  }

  /** While an input has yet to insert its packet, the cache has no resolved entry for that address, and the packet is
      the most recent from it. */
  ghost predicate PendingOk(s: Station, secs: seq<Section>) {
    s.pending.Some? ==>
      && Said(secs, s.pending.value.spa) == Some(s.pending.value.sha)
      && forall i :: 0 <= i < |s.cache| && s.cache[i].pa == s.pending.value.spa ==> s.cache[i].state == Incomplete
  }

  ghost predicate StationInv(s: Station, secs: seq<Section>, now: nat) {
    Ordered(s.cache, secs, now) && PendingOk(s, secs)
  }

  lemma SaidStep(secs: seq<Section>, sec: Section, pa: IpAddr)
    ensures Said(secs + [sec], pa) == if sec.Refresh? && sec.p.spa == pa then Some(sec.p.sha) else Said(secs, pa)
  {
    assert (secs + [sec])[..|secs|] == secs;
  }

  /** An insertion into a full cache never takes the younger of two resolved entries for one address, and so the first
      one left for an address was the first before. */
  lemma InsertOrdered(c: seq<Entry>, e: Entry, secs: seq<Section>, now: nat)
    requires Ordered(c, secs, now) && e.state != Static
    requires e.state == Resolved ==>
      && e.timestamp < now && Said(secs, e.pa) == Some(e.ha)
      && forall i :: 0 <= i < |c| && c[i].pa == e.pa ==> c[i].state != Resolved
    ensures Ordered(Inserted(c, e), secs, now)
  {
    var d := Inserted(c, e);
    var k := if |c| < CACHE_SIZE then |c| else Oldest(c, |c|).value;
    assert |d| == (if |c| < CACHE_SIZE then |c| + 1 else |c|) && d[k] == e;
    assert forall i :: 0 <= i < |d| && i != k ==> i < |c| && d[i] == c[i];
    forall i | 0 <= i < |d| && First(d, i)
      ensures Said(secs, d[i].pa) == Some(d[i].ha)
    {
      if i != k {
        FirstBefore(c, d, k, i);
      }
    }
  }

  /** Replacing the oldest entry, or appending, makes no other entry first. */
  lemma FirstBefore(c: seq<Entry>, d: seq<Entry>, k: nat, i: nat)
    requires i < |c| && i < |d| && i != k && d[i] == c[i] && First(d, i)
    requires forall j :: 0 <= j < i && j != k ==> j < |d| && d[j] == c[j]
    requires forall j, m :: 0 <= j < m < |c| && c[j].state == c[m].state == Resolved && c[j].pa == c[m].pa ==>
      c[j].timestamp > c[m].timestamp
    requires k < |c| ==> forall j :: 0 <= j < |c| && c[j].state != Static ==> c[k].timestamp <= c[j].timestamp
    ensures First(c, i)
  {
    forall j | 0 <= j < i
      ensures c[j].state != Resolved || c[j].pa != c[i].pa
    {
      if j != k {
        assert d[j] == c[j];
      }
    }
  }

  /** The refreshed entry is the first for its address, and younger than all others. */
  lemma UpdateOrdered(c: seq<Entry>, secs: seq<Section>, sec: Section, now: nat)
    requires sec.Refresh? && Ordered(c, secs, sec.now) && sec.now < now
    ensures Ordered(Updated(c, sec.p.spa, sec.p.sha, sec.now), secs + [sec], now)
  {
    var d, k := Updated(c, sec.p.spa, sec.p.sha, sec.now), Find(c, sec.p.spa, 0);
    forall i | 0 <= i < |d| && First(d, i)
      ensures Said(secs + [sec], d[i].pa) == Some(d[i].ha)
    {
      SaidStep(secs, sec, d[i].pa);
      if k.None? {
        assert First(c, i);
      } else if i != k.value {
        FirstElsewhere(c, d, k.value, i);
      }
    }
  }

  /** Beside the refreshed entry, what is first was first. */
  lemma FirstElsewhere(c: seq<Entry>, d: seq<Entry>, k: nat, i: nat)
    requires k < |c| == |d| && i < |c| && i != k && d == c[k := d[k]] && d[k].state == Resolved && d[k].pa == c[k].pa
    requires First(d, i) && forall j :: 0 <= j < k ==> c[j].pa != c[k].pa
    ensures First(c, i) && c[i].pa != c[k].pa
  {
    forall j | 0 <= j < i
      ensures c[j].state != Resolved || c[j].pa != c[i].pa
    {
      assert d[j].pa == c[j].pa;
    }
  }

  /** A sweep that takes the first resolved entry for an address takes the older ones behind it too. */
  lemma SweepOrdered(c: seq<Entry>, secs: seq<Section>, now: nat, at: nat)
    requires Ordered(c, secs, now)
    ensures Ordered(Expire(c, at), secs, now)
  {
    var kept := ExpireExact(c, at);
    var d := Expire(c, at);
    SelectsShort(c, kept, d);
    forall m | 0 <= m < |d| && First(d, m)
      ensures Said(secs, d[m].pa) == Some(d[m].ha)
    {
      FirstSwept(c, kept, d, at, m);
    }
  }

  lemma FirstSwept(c: seq<Entry>, kept: seq<nat>, d: seq<Entry>, at: nat, m: nat)
    requires Selects(c, kept, d) && m < |d| && First(d, m)
    requires forall i: nat :: i < |c| ==> (i in kept <==> Keeps(c[i], at))
    requires forall i :: 0 <= i < |c| ==> c[i].state != Static
    requires forall i, j :: 0 <= i < j < |c| && c[i].state == c[j].state == Resolved && c[i].pa == c[j].pa ==>
      c[i].timestamp > c[j].timestamp
    ensures First(c, kept[m]) && d[m] == c[kept[m]]
  {
    var n := kept[m];
    assert n in kept;
    forall j: nat | j < n
      ensures c[j].state != Resolved || c[j].pa != c[n].pa
    {
      if Keeps(c[j], at) {
        var q :| 0 <= q < |kept| && kept[q] == j;
        assert q < m;
      }
    }
  }

  /** Nothing that is said, and no time of the inputs, changes in the other sections. */
  lemma OrderedLater(c: seq<Entry>, secs: seq<Section>, sec: Section, now: nat, later: nat)
    requires Ordered(c, secs, now) && !sec.Refresh? && now <= later
    ensures Ordered(c, secs + [sec], later)
  {
    forall i | 0 <= i < |c|
      ensures Said(secs + [sec], c[i].pa) == Said(secs, c[i].pa)
    {
      SaidStep(secs, sec, c[i].pa);
    }
  }

  /** Every section keeps the invariant; `now` is later than every section of the inputs so far. */
  lemma SectionKeeps(s: Station, secs: seq<Section>, sec: Section, now: nat, later: nat)
    requires StationInv(s, secs, now) && Can(s, sec) && now <= later
    requires Resolves(sec) ==> now <= sec.now < later
    ensures StationInv(SectionStep(s, sec), secs + [sec], later)
  {
    if s.pending.Some? {
      SaidStep(secs, sec, s.pending.value.spa);
    }
    match sec
    case Refresh(p, me, at) =>
      UpdateOrdered(s.cache, secs, sec, later);
      SaidStep(secs, sec, p.spa);
    case Enter(at) =>
      OrderedLater(s.cache, secs, sec, now, later);
      InsertOrdered(s.cache, Resolution(s.pending.value, at), secs + [sec], later);
    case Look(_) => OrderedLater(s.cache, secs, sec, now, later);
    case Await(pa, at) =>
      OrderedLater(s.cache, secs, sec, now, later);
      InsertOrdered(s.cache, Awaited(pa, at), secs + [sec], later);
    case Sweep(at) =>
      OrderedLater(s.cache, secs, sec, now, later);
      SweepOrdered(s.cache, secs + [sec], later, at);
  }

  // ---------------------------------------------------------------- over whole runs

  /** A moment after all sections of the inputs. */
  function Clock(secs: seq<Section>): nat {
    if secs == [] then 0
    else
      var sec := secs[|secs| - 1];
      if Resolves(sec) then sec.now + 1 else Clock(secs[..|secs| - 1])
  }

  lemma {:induction false} ClockBefore(secs: seq<Section>, k: nat)
    requires Ticks(secs) && k < |secs| && Resolves(secs[k])
    ensures Clock(secs[..k]) <= secs[k].now
  {
    ClockUpTo(secs, k, k);
  }

  lemma {:induction false} ClockUpTo(secs: seq<Section>, m: nat, k: nat)
    requires Ticks(secs) && m <= k < |secs| && Resolves(secs[k])
    ensures Clock(secs[..m]) <= secs[k].now
  {
    if m > 0 {
      assert secs[..m][..m - 1] == secs[..m - 1];
      ClockUpTo(secs, m - 1, k);
    }
  }

  lemma {:induction false} RunKeeps(t: seq<Station>, secs: seq<Section>, i: nat)
    requires IsSectionRun(t, secs) && Ticks(secs) && i < |t|
    ensures StationInv(t[i], secs[..i], Clock(secs[..i]))
  {
    if i > 0 {
      RunKeeps(t, secs, i - 1);
      var sec := secs[i - 1];
      assert secs[..i] == secs[..i - 1] + [sec];
      assert secs[..i][..i - 1] == secs[..i - 1];
      if Resolves(sec) {
        ClockBefore(secs, i - 1);
      }
      SectionKeeps(t[i - 1], secs[..i - 1], sec, Clock(secs[..i - 1]), Clock(secs[..i]));
    }
  }

  /** Whatever `resolve` answers is what the most recent valid packet from that address said, in every interleaving that
      the locks and the dispatching thread allow, on a clock that advances between two sections of the inputs. */
  lemma AnswersAreLatest(t: seq<Station>, secs: seq<Section>, i: nat, pa: IpAddr, now: nat)
    requires IsSectionRun(t, secs) && Ticks(secs) && i < |t| && Resolve(t[i].cache, pa, now).1.Known?
    ensures Said(secs[..i], pa) == Some(Resolve(t[i].cache, pa, now).1.ha)
  {
    RunKeeps(t, secs, i);
    var k := Find(t[i].cache, pa, 0).value;
    assert First(t[i].cache, k);
  }

  /** And the cache stays bounded, with resolved entries of one address in falling order of age. */
  lemma CacheStaysOrdered(t: seq<Station>, secs: seq<Section>, i: nat, j: nat, k: nat)
    requires IsSectionRun(t, secs) && Ticks(secs) && i < |t| && j < k < |t[i].cache|
    requires t[i].cache[j].state == t[i].cache[k].state == Resolved && t[i].cache[j].pa == t[i].cache[k].pa
    ensures |t[i].cache| <= CACHE_SIZE && t[i].cache[j].timestamp > t[i].cache[k].timestamp
  {
    RunKeeps(t, secs, i);
  }

  // ---------------------------------------------------------------- what the released lock costs

  ghost predicate Unique(c: seq<Entry>) {
    forall i, j :: 0 <= i < j < |c| ==> c[i].pa != c[j].pa
  }

  /** No entry for `pa` is there, other than one the insertion evicts. */
  ghost predicate Vacant(c: seq<Entry>, pa: IpAddr) {
    forall i :: 0 <= i < |c| && c[i].pa == pa ==> |c| == CACHE_SIZE && Oldest(c, |c|) == Some(i)
  }

  /** If the section inserts, the address it inserts is not there. */
  ghost predicate FindsVacant(s: Station, sec: Section)
    requires Can(s, sec)
  {
    match sec
    case Enter(_) => Vacant(s.cache, s.pending.value.spa)
    case Await(pa, _) => Vacant(s.cache, pa)
    case _ => true
  }

  lemma InsertUniqueIff(c: seq<Entry>, e: Entry)
    requires Unique(c) && |c| <= CACHE_SIZE && forall i :: 0 <= i < |c| ==> c[i].state != Static
    ensures Unique(Inserted(c, e)) <==> Vacant(c, e.pa)
  {
    var d := Inserted(c, e);
    if |c| < CACHE_SIZE {
      forall i | 0 <= i < |c| && c[i].pa == e.pa
        ensures !Unique(d)
      {
        assert d[i].pa == d[|c|].pa;
      }
    } else {
      var k := Oldest(c, |c|).value;
      forall i | 0 <= i < |c| && c[i].pa == e.pa && i != k
        ensures !Unique(d)
      {
        assert d[i].pa == d[k].pa;
      }
    }
  }

  /** When a second entry for an address arises: exactly when the insertion of an input or of a lookup finds that
      another section has entered the address since it found it missing. */
  lemma StaysUniqueIff(s: Station, sec: Section)
    requires Unique(s.cache) && |s.cache| <= CACHE_SIZE && Can(s, sec)
    requires forall i :: 0 <= i < |s.cache| ==> s.cache[i].state != Static
    ensures Unique(SectionStep(s, sec).cache) <==> FindsVacant(s, sec)
  {
    match sec
    case Refresh(_, _, _) =>
    case Enter(now) => InsertUniqueIff(s.cache, Resolution(s.pending.value, now));
    case Look(_) =>
    case Await(pa, now) => InsertUniqueIff(s.cache, Awaited(pa, now));
    case Sweep(now) =>
      var kept := ExpireExact(s.cache, now);
  }

  /** What an input finds there is an entry that waits for an answer: a lookup came between its two sections. */
  lemma EnterFindsAwaited(t: seq<Station>, secs: seq<Section>, i: nat, k: nat)
    requires IsSectionRun(t, secs) && Ticks(secs) && i < |secs| && secs[i].Enter?
    requires k < |t[i].cache| && t[i].pending.Some? && t[i].cache[k].pa == t[i].pending.value.spa
    ensures t[i].cache[k].state == Incomplete
  {
    RunKeeps(t, secs, i);
  }

  // ---------------------------------------------------------------- runs in which this matters

  /** One more section of a run. */
  lemma Goes(t: seq<Station>, secs: seq<Section>, sec: Section, s: Station) returns (u: seq<Station>, ns: seq<Section>)
    requires IsSectionRun(t, secs) && Can(t[|secs|], sec) && SectionStep(t[|secs|], sec) == s
    ensures IsSectionRun(u, ns) && ns == secs + [sec] && u[|ns|] == s
    ensures forall pa :: Said(ns, pa) == Says(secs, sec, pa)
  {
    u, ns := t + [s], secs + [sec];
    forall pa
      ensures Said(ns, pa) == Says(secs, sec, pa)
    {
      SaidStep(secs, sec, pa);
    }
  }

  function Says(secs: seq<Section>, sec: Section, pa: IpAddr): Option<EtherAddr> {
    if sec.Refresh? && sec.p.spa == pa then Some(sec.p.sha) else Said(secs, pa)
  }

  /** A packet meets an empty cache, and a lookup comes between the two sections of its input. */
  lemma InBetween(p: ArpPacket, me: Iface, await: nat, enter: nat) returns (t: seq<Station>, secs: seq<Section>)
    requires p.tpa == me.pa
    ensures IsSectionRun(t, secs) && Said(secs, p.spa) == Some(p.sha)
    ensures secs == [Refresh(p, Some(me), 0), Look(p.spa), Await(p.spa, await), Enter(enter)]
    ensures t[|secs|] == Station([Awaited(p.spa, await), Resolution(p, enter)], None, multiset{})
  {
    t, secs := LooksInBetween(p, me);
    t, secs := Goes(t, secs, Await(p.spa, await), Station([Awaited(p.spa, await)], Some(p), multiset{}));
    t, secs := Goes(t, secs, Enter(enter), Station([Awaited(p.spa, await), Resolution(p, enter)], None, multiset{}));
  }

  lemma LooksInBetween(p: ArpPacket, me: Iface) returns (t: seq<Station>, secs: seq<Section>)
    requires p.tpa == me.pa
    ensures IsSectionRun(t, secs) && Said(secs, p.spa) == Some(p.sha)
    ensures secs == [Refresh(p, Some(me), 0), Look(p.spa)]
    ensures t[|secs|] == Station([], Some(p), multiset{p.spa})
  {
    t, secs := [Station([], None, multiset{})], [];
    t, secs := Goes(t, secs, Refresh(p, Some(me), 0), Station([], Some(p), multiset{}));
    t, secs := Goes(t, secs, Look(p.spa), Station([], Some(p), multiset{p.spa}));
  }

  /** Then the address is there twice, and `resolve` goes on waiting for an answer that was heard. */
  lemma LookupInBetween(p: ArpPacket, me: Iface) returns (t: seq<Station>, secs: seq<Section>)
    requires p.tpa == me.pa
    ensures IsSectionRun(t, secs) && Ticks(secs) && Said(secs, p.spa) == Some(p.sha)
    ensures !Unique(t[|secs|].cache) && Resolve(t[|secs|].cache, p.spa, 3).1 == Pending
  {
    t, secs := InBetween(p, me, 1, 2);
    assert t[|secs|].cache[0].pa == t[|secs|].cache[1].pa;
  }

  // ---------------------------------------------------------------- a clock that stands still

  function Other(k: nat): IpAddr
    requires k < 256
  {
    IpAddr(10, 0, 0, k)
  }

  /** A newer and an older entry for one address, and `n` that wait, all of the same moment. */
  function Tied(newer: ArpPacket, older: ArpPacket, n: nat): seq<Entry>
    requires n < 256
  {
    [Resolution(newer, 0), Resolution(older, 0)] + seq(n, k requires 0 <= k < n => Awaited(Other(k), 0))
  }

  /** Lookups of other addresses fill the cache. */
  lemma {:induction false} Fills(newer: ArpPacket, older: ArpPacket, me: Iface, n: nat)
    returns (t: seq<Station>, secs: seq<Section>)
    requires newer.spa == older.spa && newer.tpa == older.tpa == me.pa && newer.spa.b0 != 10 && n <= 30
    ensures IsSectionRun(t, secs) && Said(secs, newer.spa) == Some(newer.sha)
    ensures t[|secs|] == Station(Tied(newer, older, n), None, multiset{})
  {
    if n == 0 {
      t, secs := InBetween(older, me, 0, 0);
      assert Tied(newer, older, 0) == [Resolution(newer, 0), Resolution(older, 0)];
      t, secs := Goes(t, secs, Refresh(newer, Some(me), 0), Station(Tied(newer, older, 0), None, multiset{}));
    } else {
      t, secs := Fills(newer, older, me, n - 1);
      var c, pa := Tied(newer, older, n - 1), Other(n - 1);
      assert forall i :: 0 <= i < |c| ==> c[i].pa != pa;
      assert Find(c, pa, 0).None?;
      t, secs := Goes(t, secs, Look(pa), Station(c, None, multiset{pa}));
      assert Tied(newer, older, n) == c + [Awaited(pa, 0)];
      t, secs := Goes(t, secs, Await(pa, 0), Station(Tied(newer, older, n), None, multiset{}));
    }
  }

  /** What the clock is needed for: if it stands still, an insertion into a full cache can take the younger of two
      entries for one address, and `resolve` answers with what the older packet said. */
  lemma TieGoesStale(newer: ArpPacket, older: ArpPacket, me: Iface) returns (t: seq<Station>, secs: seq<Section>)
    requires newer.spa == older.spa && newer.tpa == older.tpa == me.pa && newer.spa.b0 != 10
    ensures IsSectionRun(t, secs) && Said(secs, newer.spa) == Some(newer.sha)
    ensures Resolve(t[|secs|].cache, newer.spa, 0).1 == Known(older.sha)
  {
    t, secs := Fills(newer, older, me, 30);
    var c, pa := Tied(newer, older, 30), Other(30);
    assert forall i :: 0 <= i < |c| ==> c[i].pa != pa;
    assert Find(c, pa, 0).None?;
    t, secs := Goes(t, secs, Look(pa), Station(c, None, multiset{pa}));
    assert Oldest(c, |c|) == Some(0);
    var d := c[0 := Awaited(pa, 0)];
    t, secs := Goes(t, secs, Await(pa, 0), Station(d, None, multiset{}));
    assert d[0].pa != newer.spa && d[1] == Resolution(older, 0);
    assert Find(d, newer.spa, 0) == Some(1);
  }
}
