/** Draft uploads: pictures held in memory until a post names them, within a budget and a rate. */
module Drafts {
  import opened Messages
  import opened Sums
  import Seqs

  type Addr = string

  /** Times are in nanoseconds. */
  const SECOND: int := 1_000_000_000
  const MINUTE: int := 60 * SECOND
  const TTL: int := 10 * MINUTE
  const MAX_UPLOAD: nat := 8 * 1024 * 1024
  const PER_ADDR: nat := 8
  const ADDR_BYTES: nat := 4 * MAX_UPLOAD
  const ALL_BYTES: nat := 16 * MAX_UPLOAD
  const PER_MINUTE: nat := 24

  datatype Draft = Draft(body: seq<bv8>, mime: string, addr: Addr, expires: int)

  type Held = map<Cid, Draft>

  /** What is held, and each address's requests of the last minute, oldest first. */
  datatype State = State(m: Held, hits: map<Addr, seq<int>>)

  // ---- what is held ----

  ghost function Sizes(m: Held): map<Cid, nat> { map c | c in m :: |m[c].body| }
  ghost function Bytes(m: Held): nat { Sum(Sizes(m)) }

  /** An address's own drafts. */
  function Of(m: Held, a: Addr): Held { map c | c in m && m[c].addr == a :: m[c] }

  /** What has not lapsed. */
  function Live(m: Held, now: int): Held { map c | c in m && now < m[c].expires :: m[c] }

  lemma BytesPut(m: Held, c: Cid, d: Draft)
    ensures Bytes(m[c := d]) + (if c in m then |m[c].body| else 0) == Bytes(m) + |d.body|
  {
    assert Sizes(m[c := d]) == Sizes(m)[c := |d.body|];
    SumPut(Sizes(m), c, |d.body|);
  }

  lemma BytesTake(m: Held, c: Cid)
    ensures Bytes(m - {c}) + (if c in m then |m[c].body| else 0) == Bytes(m)
  {
    assert Sizes(m - {c}) == Sizes(m) - {c};
    SumTake(Sizes(m), c);
  }

  /** The budget: so much in all, so many and so much for each address. */
  ghost predicate InBudget(m: Held)
  {
    Bytes(m) <= ALL_BYTES && forall a: Addr :: FitsFor(m, a)
  }

  ghost predicate FitsFor(m: Held, a: Addr)
  {
    |Of(m, a)| <= PER_ADDR && Bytes(Of(m, a)) <= ADDR_BYTES
  }

  ghost predicate Part(n: Held, m: Held)
  {
    forall c :: c in n ==> c in m && n[c] == m[c]
  }

  lemma PartFits(n: Held, m: Held)
    requires Part(n, m)
    ensures Bytes(n) <= Bytes(m) && |n| <= |m|
  {
    SumWithin(Sizes(n), Sizes(m));
    FewerKeys(n.Keys, m.Keys);
    assert |n| == |n.Keys| && |m| == |m.Keys|;
  }

  /** Dropping drafts keeps the budget. */
  lemma FewerFit(n: Held, m: Held)
    requires Part(n, m) && InBudget(m)
    ensures InBudget(n)
  {
    PartFits(n, m);
    forall a: Addr
      ensures FitsFor(n, a)
    {
      assert FitsFor(m, a);
      PartFits(Of(n, a), Of(m, a));
    }
  }

  // ---- the operations ----

  /** The requests of the last minute. */
  function Recent(ts: seq<int>, now: int): seq<int>
  {
    if ts != [] && now - ts[0] >= MINUTE then Recent(ts[1..], now) else ts
  }

  function RecentHits(hits: map<Addr, seq<int>>, now: int): map<Addr, seq<int>>
  {
    map a | a in hits && Recent(hits[a], now) != [] :: Recent(hits[a], now)
  }

  function Swept(s: State, now: int): State
  {
    State(Live(s.m, now), RecentHits(s.hits, now))
  }

  function Hits(s: State, a: Addr): seq<int> { if a in s.hits then s.hits[a] else [] }

  /** How many seconds to wait until the oldest request is a minute old. */
  function Wait(now: int, oldest: int): int { (MINUTE - (now - oldest)) / SECOND + 1 }

  /** A request counted, or how long it is to wait: 0 when it may go on. */
  function Admit(s: State, a: Addr, now: int): (State, int)
  {
    var s1 := Swept(s, now);
    var ts := Hits(s1, a);
    if |ts| >= PER_MINUTE then (s1, Wait(now, ts[0])) else (s1.(hits := s1.hits[a := ts + [now]]), 0)
  }

  ghost predicate Full(m: Held, a: Addr, add: nat)
  {
    |Of(m, a)| >= PER_ADDR || Bytes(Of(m, a)) + add > ADDR_BYTES || Bytes(m) + add > ALL_BYTES
  }

  /** A file held, and when it lapses; the same file again starts its time over. */
  ghost function Hold(s: State, c: Cid, body: seq<bv8>, mime: string, a: Addr, now: int): (State, Option<int>)
  {
    var s1 := Swept(s, now);
    if c in s1.m then (s1.(m := s1.m[c := s1.m[c].(expires := now + TTL)]), Some(now + TTL))
    else if Full(s1.m, a, |body|) then (s1, None)
    else (s1.(m := s1.m[c := Draft(body, mime, a, now + TTL)]), Some(now + TTL))
  }

  function Look(s: State, c: Cid, now: int): (State, Option<Draft>)
  {
    var s1 := Swept(s, now);
    (s1, if c in s1.m then Some(s1.m[c]) else None)
  }

  function Drop(s: State, c: Cid): State { s.(m := s.m - {c}) }

  lemma SweptFits(s: State, now: int)
    requires InBudget(s.m)
    ensures InBudget(Swept(s, now).m)
  {
    FewerFit(Live(s.m, now), s.m);
  }

  lemma AgainFits(m: Held, c: Cid, expires: int)
    requires InBudget(m) && c in m
    ensures InBudget(m[c := m[c].(expires := expires)])
  {
    var d := m[c].(expires := expires);
    var m1 := m[c := d];
    BytesPut(m, c, d);
    forall a: Addr
      ensures FitsFor(m1, a)
    {
      assert FitsFor(m, a);
      if a == d.addr { OwnAgain(m, c, d); } else { assert Of(m1, a) == Of(m, a); }
    }
  }

  lemma OwnAgain(m: Held, c: Cid, d: Draft)
    requires c in m && d.addr == m[c].addr && |d.body| == |m[c].body|
    ensures |Of(m[c := d], d.addr)| == |Of(m, d.addr)| && Bytes(Of(m[c := d], d.addr)) == Bytes(Of(m, d.addr))
  {
    var own := Of(m, d.addr);
    assert Of(m[c := d], d.addr) == own[c := d];
    BytesPut(own, c, d);
    assert own[c := d].Keys == own.Keys;
    assert |own[c := d]| == |own[c := d].Keys| && |own| == |own.Keys|;
  }

  lemma NewFits(m: Held, c: Cid, d: Draft)
    requires InBudget(m) && c !in m && !Full(m, d.addr, |d.body|)
    ensures InBudget(m[c := d])
  {
    var m1 := m[c := d];
    BytesPut(m, c, d);
    forall a: Addr
      ensures FitsFor(m1, a)
    {
      assert FitsFor(m, a);
      if a == d.addr { OwnNew(m, c, d); } else { assert Of(m1, a) == Of(m, a); }
    }
  }

  lemma OwnNew(m: Held, c: Cid, d: Draft)
    requires c !in m
    ensures |Of(m[c := d], d.addr)| == |Of(m, d.addr)| + 1
    ensures Bytes(Of(m[c := d], d.addr)) == Bytes(Of(m, d.addr)) + |d.body|
  {
    var own := Of(m, d.addr);
    assert Of(m[c := d], d.addr) == own[c := d];
    BytesPut(own, c, d);
  }

  lemma PutFits(s: State, c: Cid, body: seq<bv8>, mime: string, a: Addr, now: int)
    requires InBudget(s.m)
    ensures InBudget(Hold(s, c, body, mime, a, now).0.m)
  {
    SweptFits(s, now);
    var m := Swept(s, now).m;
    if c in m {
      AgainFits(m, c, now + TTL);
    } else if !Full(m, a, |body|) {
      NewFits(m, c, Draft(body, mime, a, now + TTL));
    }
  }

  // ---- the rate ----

  predicate Sorted(ts: seq<int>) { forall i, j :: 0 <= i < j < |ts| ==> ts[i] <= ts[j] }

  /** No twenty-five requests granted within less than a minute. */
  predicate Spaced(ts: seq<int>) { forall i :: 0 <= i < |ts| - PER_MINUTE ==> ts[i + PER_MINUTE] - ts[i] >= MINUTE }

  /** hits is what is left of all that was granted: the rest is over a minute old. */
  predicate Tail(hits: seq<int>, granted: seq<int>, clock: int)
  {
    && |hits| <= |granted| && |hits| <= PER_MINUTE && hits == granted[|granted| - |hits|..]
    && (forall i :: 0 <= i < |granted| - |hits| ==> clock - granted[i] >= MINUTE)
    && Sorted(granted) && Spaced(granted) && (granted != [] ==> granted[|granted| - 1] <= clock)
  }

  lemma {:induction false} RecentIs(ts: seq<int>, now: int)
    ensures |Recent(ts, now)| <= |ts| && Recent(ts, now) == ts[|ts| - |Recent(ts, now)|..]
    ensures forall i :: 0 <= i < |ts| - |Recent(ts, now)| ==> now - ts[i] >= MINUTE
    ensures Recent(ts, now) != [] ==> now - Recent(ts, now)[0] < MINUTE
  {
    if ts != [] && now - ts[0] >= MINUTE {
      RecentIs(ts[1..], now);
    }
  }

  lemma RecentTail(hits: seq<int>, granted: seq<int>, clock: int, now: int)
    requires Tail(hits, granted, clock) && clock <= now
    ensures Tail(Recent(hits, now), granted, now)
  {
    RecentIs(hits, now);
    var r, g := Recent(hits, now), |granted|;
    Seqs.Past(granted, g - |hits|, |hits| - |r|);
    forall i | 0 <= i < g - |r|
      ensures now - granted[i] >= MINUTE
    {
      if i >= g - |hits| { assert granted[i] == hits[i - (g - |hits|)]; }
    }
  }

  lemma GrantTail(hits: seq<int>, granted: seq<int>, now: int)
    requires Tail(hits, granted, now) && |hits| < PER_MINUTE
    ensures Tail(hits + [now], granted + [now], now)
  {
    var g := granted + [now];
    forall i, j | 0 <= i < j < |g|
      ensures g[i] <= g[j]
    {
      if j == |granted| && i < |granted| { assert granted[i] <= granted[|granted| - 1]; }
    }
    forall i | 0 <= i < |g| - PER_MINUTE
      ensures g[i + PER_MINUTE] - g[i] >= MINUTE
    {
    }
  }

  // ---- whole runs ----

  datatype Op =
    | Sweeps(now: int)
    | Allows(a: Addr, now: int)
    | Puts(c: Cid, body: seq<bv8>, mime: string, a: Addr, now: int)
    | Gets(c: Cid, now: int)
    | Drops(c: Cid, now: int)

  ghost function Moved(s: State, op: Op): State
  {
    match op
    case Sweeps(now) => Swept(s, now)
    case Allows(a, now) => Admit(s, a, now).0
    case Puts(c, body, mime, a, now) => Hold(s, c, body, mime, a, now).0
    case Gets(c, now) => Look(s, c, now).0
    case Drops(c, _) => Drop(s, c)
  }

  ghost function Run(s: State, ops: seq<Op>): State
    decreases |ops|
  {
    if ops == [] then s else Moved(Run(s, ops[..|ops| - 1]), ops[|ops| - 1])
  }

  /** A clock that never goes back. */
  predicate Clocked(ops: seq<Op>, from: int)
  {
    forall i, j :: 0 <= i <= j < |ops| ==> from <= ops[i].now <= ops[j].now
  }

  function ClockOf(ops: seq<Op>, from: int): int { if ops == [] then from else ops[|ops| - 1].now }

  const EMPTY := State(map[], map[])

  /** When each of an address's requests was granted. */
  ghost function Granted(ops: seq<Op>, a: Addr): seq<int>
    decreases |ops|
  {
    if ops == [] then []
    else
      var front, op := ops[..|ops| - 1], ops[|ops| - 1];
      var granted := op.Allows? && op.a == a && Admit(Run(EMPTY, front), a, op.now).1 == 0;
      Granted(front, a) + (if granted then [op.now] else [])
  }

  lemma WaitIsPositive(s: State, a: Addr, now: int)
    requires |Hits(Swept(s, now), a)| >= PER_MINUTE
    ensures Admit(s, a, now).1 > 0
    ensures Admit(s, a, now).1 * SECOND > MINUTE - (now - Hits(Swept(s, now), a)[0]) > 0
  {
    RecentIs(Hits(s, a), now);
    assert Hits(Swept(s, now), a) == Recent(Hits(s, a), now);
  }

  lemma SweptHits(s: State, now: int, a: Addr)
    ensures Hits(Swept(s, now), a) == Recent(Hits(s, a), now)
  {
  }

  lemma {:induction false} RunKeeps(ops: seq<Op>, from: int, a: Addr)
    requires Clocked(ops, from)
    ensures InBudget(Run(EMPTY, ops).m) && Tail(Hits(Run(EMPTY, ops), a), Granted(ops, a), ClockOf(ops, from))
    decreases |ops|
  {
    if ops == [] {
      EmptyFits();
    } else {
      var front, op := ops[..|ops| - 1], ops[|ops| - 1];
      RunKeeps(front, from, a);
      OpKeeps(Run(EMPTY, front), op, Granted(front, a), ClockOf(front, from), a);
    }
  }

  lemma EmptyFits()
    ensures InBudget(map[])
  {
    assert Sizes(map[]) == map[];
    assert forall a: Addr :: Of(map[], a) == map[];
  }

  lemma OpKeeps(s: State, op: Op, granted: seq<int>, clock: int, a: Addr)
    requires InBudget(s.m) && Tail(Hits(s, a), granted, clock) && clock <= op.now
    ensures InBudget(Moved(s, op).m)
    ensures var grants := op.Allows? && op.a == a && Admit(s, a, op.now).1 == 0;
            Tail(Hits(Moved(s, op), a), granted + (if grants then [op.now] else []), op.now)
  {
    SweptFits(s, op.now);
    if op.Puts? { PutFits(s, op.c, op.body, op.mime, op.a, op.now); }
    if op.Drops? { FewerFit(s.m - {op.c}, s.m); }
    TailKeeps(s, op, granted, clock, a);
  }

  lemma OnlySwept(s: State, op: Op, a: Addr)
    requires !op.Allows? && !op.Drops?
    ensures Hits(Moved(s, op), a) == Recent(Hits(s, a), op.now)
  {
    assert Moved(s, op).hits == Swept(s, op.now).hits;
  }

  lemma TailKeeps(s: State, op: Op, granted: seq<int>, clock: int, a: Addr)
    requires Tail(Hits(s, a), granted, clock) && clock <= op.now
    ensures var grants := op.Allows? && op.a == a && Admit(s, a, op.now).1 == 0;
            Tail(Hits(Moved(s, op), a), granted + (if grants then [op.now] else []), op.now)
  {
    assert granted + [] == granted;
    if op.Drops? {
      DropKeeps(s, op.c, granted, clock, op.now, a);
    } else {
      RecentTail(Hits(s, a), granted, clock, op.now);
      if op.Allows? {
        SweptHits(s, op.now, a);
        AllowKeeps(s, op.a, op.now, granted, a);
      } else {
        OnlySwept(s, op, a);
      }
    }
  }

  lemma AllowKeeps(s: State, b: Addr, now: int, granted: seq<int>, a: Addr)
    requires Tail(Hits(Swept(s, now), a), granted, now)
    ensures Tail(Hits(Admit(s, b, now).0, a), granted + (if b == a && Admit(s, a, now).1 == 0 then [now] else []), now)
  {
    assert granted + [] == granted;
    if |Hits(Swept(s, now), b)| >= PER_MINUTE {
      WaitIsPositive(s, b, now);
    } else if b == a {
      GrantTail(Hits(Swept(s, now), a), granted, now);
    }
  }

  lemma DropKeeps(s: State, c: Cid, granted: seq<int>, clock: int, now: int, a: Addr)
    requires Tail(Hits(s, a), granted, clock) && clock <= now
    ensures Tail(Hits(Drop(s, c), a), granted, now)
  {
  }

  /** Over any run, whatever is put, got, dropped, asked and swept: what is held stays within the
      budget, in all and for each address. */
  lemma AlwaysInBudget(ops: seq<Op>, from: int)
    requires Clocked(ops, from)
    ensures InBudget(Run(EMPTY, ops).m)
  {
    RunKeeps(ops, from, "");
  }

  /** Any window of a minute grants an address at most 24 requests. */
  lemma AtMostPerMinute(ops: seq<Op>, from: int, a: Addr, start: int, i: nat, j: nat)
    requires Clocked(ops, from) && i <= j < |Granted(ops, a)|
    requires start <= Granted(ops, a)[i] && Granted(ops, a)[j] < start + MINUTE
    ensures j - i + 1 <= PER_MINUTE
  {
    RunKeeps(ops, from, a);
    var g := Granted(ops, a);
    if i + PER_MINUTE < |g| { assert g[i + PER_MINUTE] - g[i] >= MINUTE; }
  }

  /** A draft that lapsed is never answered. */
  lemma NeverLapsed(s: State, c: Cid, now: int)
    ensures Look(s, c, now).1.Some? ==> c in s.m && Look(s, c, now).1.value == s.m[c] && now < s.m[c].expires
    ensures Look(s, c, now).1.None? ==> c !in s.m || s.m[c].expires <= now
  {
  }

  /** hits is what is left of ts: some of its oldest gone. */
  predicate LeftOf(hits: seq<int>, ts: seq<int>)
  {
    |hits| <= |ts| && hits == ts[|ts| - |hits|..]
  }

  /** While an address asks nothing, its requests only lapse. */
  lemma {:induction false} OnlyLapses(s: State, ops: seq<Op>, a: Addr)
    requires forall i :: 0 <= i < |ops| ==> !(ops[i].Allows? && ops[i].a == a)
    ensures LeftOf(Hits(Run(s, ops), a), Hits(s, a))
    decreases |ops|
  {
    if ops != [] {
      var front, op := ops[..|ops| - 1], ops[|ops| - 1];
      OnlyLapses(s, front, a);
      var s1 := Run(s, front);
      RecentIs(Hits(s1, a), op.now);
      SweptHits(s1, op.now, a);
    }
  }

  /** A caller told to wait w seconds, that asks nothing meanwhile and comes back when they are
      over, is granted, whatever others did. */
  lemma WaitIsEnough(before: seq<Op>, from: int, a: Addr, now: int, ops: seq<Op>, later: int)
    requires Clocked(before, from) && ClockOf(before, from) <= now
    requires Admit(Run(EMPTY, before), a, now).1 > 0
    requires forall i :: 0 <= i < |ops| ==> !(ops[i].Allows? && ops[i].a == a)
    requires later >= now + Admit(Run(EMPTY, before), a, now).1 * SECOND
    ensures Admit(Run(Admit(Run(EMPTY, before), a, now).0, ops), a, later).1 == 0
  {
    var s := Run(EMPTY, before);
    RunKeeps(before, from, a);
    var s1 := Admit(s, a, now).0;
    WaitIsPositive(s, a, now);
    OnlyLapses(s1, ops, a);
    var ts, s2 := Hits(s1, a), Run(s1, ops);
    SweptHits(s, now, a);
    RecentTail(Hits(s, a), Granted(before, a), ClockOf(before, from), now);
    RecentIs(Hits(s2, a), later);
    SweptHits(s2, later, a);
  }

  /** The 24th last grant is less than a minute old. */
  predicate AtRate(granted: seq<int>, now: int)
  {
    |granted| >= PER_MINUTE && now - granted[|granted| - PER_MINUTE] < MINUTE
  }

  /** What is left of the last minute is full exactly when the 24th last grant is within it. */
  lemma FullIffRecent(r: seq<int>, granted: seq<int>, now: int)
    requires Tail(r, granted, now) && (r != [] ==> now - r[0] < MINUTE)
    ensures |r| >= PER_MINUTE <==> AtRate(granted, now)
    ensures |r| >= PER_MINUTE ==> r[0] == granted[|granted| - PER_MINUTE]
  {
  }

  lemma SweptTail(ops: seq<Op>, from: int, a: Addr, now: int)
    requires Clocked(ops, from) && ClockOf(ops, from) <= now
    ensures var r := Hits(Swept(Run(EMPTY, ops), now), a);
            Tail(r, Granted(ops, a), now) && (r != [] ==> now - r[0] < MINUTE)
  {
    var s := Run(EMPTY, ops);
    RunKeeps(ops, from, a);
    RecentTail(Hits(s, a), Granted(ops, a), ClockOf(ops, from), now);
    RecentIs(Hits(s, a), now);
    SweptHits(s, now, a);
  }

  lemma AdmitIs(s: State, a: Addr, now: int, granted: seq<int>)
    requires var r := Hits(Swept(s, now), a); Tail(r, granted, now) && (r != [] ==> now - r[0] < MINUTE)
    ensures Admit(s, a, now).1 == 0 <==> !AtRate(granted, now)
    ensures AtRate(granted, now) ==>
              0 < Admit(s, a, now).1 && Admit(s, a, now).1 == Wait(now, granted[|granted| - PER_MINUTE])
  {
    FullIffRecent(Hits(Swept(s, now), a), granted, now);
    if |Hits(Swept(s, now), a)| >= PER_MINUTE { WaitIsPositive(s, a, now); }
  }

  /** A request is granted exactly when fewer than 24 of the address's were within the last minute. */
  lemma GrantedIffBelowRate(ops: seq<Op>, from: int, a: Addr, now: int)
    requires Clocked(ops, from) && ClockOf(ops, from) <= now
    ensures var g := Granted(ops, a);
            Admit(Run(EMPTY, ops), a, now).1 == 0 <==> |g| < PER_MINUTE || now - g[|g| - PER_MINUTE] >= MINUTE
  {
    SweptTail(ops, from, a, now);
    AdmitIs(Run(EMPTY, ops), a, now, Granted(ops, a));
  }

  lemma {:induction false} NothingAsked(front: seq<Op>, ops: seq<Op>, a: Addr)
    requires forall i :: 0 <= i < |ops| ==> !(ops[i].Allows? && ops[i].a == a)
    ensures Granted(front + ops, a) == Granted(front, a)
    decreases |ops|
  {
    if ops == [] {
      assert front + ops == front;
    } else {
      var fewer := ops[..|ops| - 1];
      NothingAsked(front, fewer, a);
      assert (front + ops)[..|front + ops| - 1] == front + fewer;
    }
  }

  lemma ClockedFront(before: seq<Op>, a: Addr, now: int, ops: seq<Op>, from: int)
    requires Clocked(before + [Allows(a, now)] + ops, from)
    ensures Clocked(before, from) && ClockOf(before, from) <= now
  {
    var run := before + [Allows(a, now)] + ops;
    assert forall i :: 0 <= i < |before| ==> before[i] == run[i];
    assert run[|before|] == Allows(a, now);
  }

  lemma AskedInVain(before: seq<Op>, a: Addr, now: int)
    requires Admit(Run(EMPTY, before), a, now).1 > 0
    ensures Granted(before + [Allows(a, now)], a) == Granted(before, a)
  {
    var asked := before + [Allows(a, now)];
    assert asked[..|asked| - 1] == before && asked[|asked| - 1] == Allows(a, now);
  }

  lemma RefusedAgain(before: seq<Op>, run: seq<Op>, from: int, a: Addr, now: int, later: int)
    requires Clocked(before, from) && ClockOf(before, from) <= now && Clocked(run, from) && ClockOf(run, from) <= later
    requires Granted(run, a) == Granted(before, a)
    requires var w := Admit(Run(EMPTY, before), a, now).1; w > 0 && later < now + (w - 1) * SECOND
    ensures Admit(Run(EMPTY, run), a, later).1 > 0
  {
    var g := Granted(before, a);
    SweptTail(before, from, a, now);
    AdmitIs(Run(EMPTY, before), a, now, g);
    SweptTail(run, from, a, later);
    AdmitIs(Run(EMPTY, run), a, later, g);
  }

  /** A caller told to wait w seconds is told so again if it comes back before w - 1 are over. */
  lemma WaitIsNoLonger(before: seq<Op>, from: int, a: Addr, now: int, ops: seq<Op>, later: int)
    requires var run := before + [Allows(a, now)] + ops; Clocked(run, from) && ClockOf(run, from) <= later
    requires forall i :: 0 <= i < |ops| ==> !(ops[i].Allows? && ops[i].a == a)
    requires var w := Admit(Run(EMPTY, before), a, now).1; w > 0 && later < now + (w - 1) * SECOND
    ensures Admit(Run(EMPTY, before + [Allows(a, now)] + ops), a, later).1 > 0
  {
    var asked := before + [Allows(a, now)];
    var run := asked + ops;
    ClockedFront(before, a, now, ops, from);
    AskedInVain(before, a, now);
    NothingAsked(asked, ops, a);
    RefusedAgain(before, run, from, a, now, later);
  }

  // ---- what is put is answered ----

  /** The file is held as it was sent, and does not lapse before then. */
  predicate HeldTill(m: Held, c: Cid, body: seq<bv8>, mime: string, till: int)
  {
    c in m && m[c].body == body && m[c].mime == mime && m[c].expires >= till
  }

  lemma {:induction false} StaysHeld(s: State, ops: seq<Op>, c: Cid, body: seq<bv8>, mime: string, till: int)
    requires HeldTill(s.m, c, body, mime, till)
    requires forall i :: 0 <= i < |ops| ==> till - TTL <= ops[i].now < till && !(ops[i].Drops? && ops[i].c == c)
    ensures HeldTill(Run(s, ops).m, c, body, mime, till)
    decreases |ops|
  {
    if ops != [] {
      var front, op := ops[..|ops| - 1], ops[|ops| - 1];
      StaysHeld(s, front, c, body, mime, till);
      var s1 := Run(s, front);
      assert c in Swept(s1, op.now).m && Swept(s1, op.now).m[c] == s1.m[c];
    }
  }

  /** A file put is answered as it was sent for its ten minutes, whatever else is put, got, swept or
      asked meanwhile, until it is dropped; sent again it only stays longer. */
  lemma PutIsAnswered(s: State, c: Cid, body: seq<bv8>, mime: string, a: Addr, now: int, ops: seq<Op>, later: int)
    requires Hold(s, c, body, mime, a, now).1.Some? && later < now + TTL
    requires forall i :: 0 <= i < |ops| ==> now <= ops[i].now < now + TTL && !(ops[i].Drops? && ops[i].c == c)
    ensures var d := Look(Run(Hold(s, c, body, mime, a, now).0, ops), c, later).1;
            && d.Some?
            && var was := Look(s, c, now).1;
               if was.Some? then d.value.body == was.value.body && d.value.mime == was.value.mime
               else d.value.body == body && d.value.mime == mime
  {
    var s1 := Hold(s, c, body, mime, a, now).0;
    StaysHeld(s1, ops, c, s1.m[c].body, s1.m[c].mime, now + TTL);
    assert Look(Run(s1, ops), c, later).1 == Some(Run(s1, ops).m[c]);
    assert c in Swept(s, now).m <==> Look(s, c, now).1.Some?;
  }

  /** A file not held yet is refused exactly when with it the budget would be broken. */
  lemma RefusedIffOver(s: State, c: Cid, body: seq<bv8>, mime: string, a: Addr, now: int)
    requires InBudget(s.m) && Look(s, c, now).1.None?
    ensures Hold(s, c, body, mime, a, now).1.None? <==> !InBudget(Live(s.m, now)[c := Draft(body, mime, a, now + TTL)])
  {
    var m, d := Live(s.m, now), Draft(body, mime, a, now + TTL);
    SweptFits(s, now);
    if Full(m, a, |body|) {
      BytesPut(m, c, d);
      OwnNew(m, c, d);
      assert !FitsFor(m[c := d], a) || Bytes(m[c := d]) > ALL_BYTES;
    } else {
      NewFits(m, c, d);
    }
  }

  // ---- the drafts as they run ----

  /** own is what an address holds among the drafts already counted. */
  ghost predicate OwnSeen(m: Held, a: Addr, own: Held, rest: set<Cid>)
  {
    forall c :: (c in own <==> c in m && m[c].addr == a && c !in rest) && (c in own ==> own[c] == m[c])
  }

  class Drafts {
    var m: Held
    var bytes: int
    var hits: map<Addr, seq<int>>

    function View(): State
      reads this
    {
      State(m, hits)
    }

    /** bytes is kept the sum of the bodies held. */
    ghost predicate Valid()
      reads this
    {
      bytes == Bytes(m)
    }

    constructor ()
      ensures Valid() && View() == EMPTY
    {
      m, bytes, hits := map[], 0, map[];
    }

    method Remove(c: Cid)
      requires Valid() && c in m
      modifies this`m, this`bytes
      ensures Valid() && m == old(m) - {c}
    {
      BytesTake(m, c);
      bytes := bytes - |m[c].body|;
      m := m - {c};
    }

    method SweepHeld(now: int)
      requires Valid()
      modifies this`m, this`bytes
      ensures Valid() && m == Live(old(m), now)
    {
      var rest := m.Keys;
      while rest != {}
        invariant Valid() && rest <= m.Keys <= old(m).Keys
        invariant forall c :: c in m ==> m[c] == old(m)[c]
        invariant forall c :: c in old(m) && c !in rest ==> (c in m <==> now < old(m)[c].expires)
        decreases rest
      {
        var c :| c in rest;
        rest := rest - {c};
        if now >= m[c].expires { Remove(c); }
      }
    }

    method SweepHits(now: int)
      modifies this`hits
      ensures hits == RecentHits(old(hits), now)
    {
      var rest := hits.Keys;
      while rest != {}
        invariant rest <= hits.Keys <= old(hits).Keys
        invariant forall a :: a in rest ==> hits[a] == old(hits)[a]
        invariant forall a :: a in hits && a !in rest ==> hits[a] == Recent(old(hits)[a], now) != []
        invariant forall a :: a in old(hits) && a !in rest && a !in hits ==> Recent(old(hits)[a], now) == []
        decreases rest
      {
        var a :| a in rest;
        rest := rest - {a};
        var ts := TrimHits(hits[a], now);
        hits := if ts == [] then hits - {a} else hits[a := ts];
      }
    }

    method TrimHits(all: seq<int>, now: int) returns (ts: seq<int>)
      ensures ts == Recent(all, now)
    {
      ts := all;
      while ts != [] && now - ts[0] >= MINUTE
        invariant Recent(ts, now) == Recent(all, now)
        decreases |ts|
      {
        ts := ts[1..];
      }
    }

    method Sweep(now: int)
      requires Valid()
      modifies this
      ensures Valid() && View() == Swept(old(View()), now)
    {
      SweepHeld(now);
      SweepHits(now);
    }

    method Allow(a: Addr, now: int) returns (wait: int)
      requires Valid()
      modifies this
      ensures Valid() && (View(), wait) == Admit(old(View()), a, now)
    {
      Sweep(now);
      var ts := if a in hits then hits[a] else [];
      if |ts| >= PER_MINUTE { return (MINUTE - (now - ts[0])) / SECOND + 1; }
      hits := hits[a := ts + [now]];
      wait := 0;
    }

    /** How many drafts an address holds, and their bytes. */
    method CountOf(a: Addr) returns (n: nat, size: nat)
      ensures n == |Of(m, a)| && size == Bytes(Of(m, a))
    {
      n, size := 0, 0;
      var rest := m.Keys;
      ghost var own: Held := map[];
      assert Sizes(own) == map[];
      while rest != {}
        invariant rest <= m.Keys && n == |own| && size == Bytes(own) && OwnSeen(m, a, own, rest)
        decreases rest
      {
        var c :| c in rest;
        rest := rest - {c};
        if m[c].addr == a {
          BytesPut(own, c, m[c]);
          n, size, own := n + 1, size + |m[c].body|, own[c := m[c]];
        }
      }
      assert own == Of(m, a);
    }

    method Put(c: Cid, body: seq<bv8>, mime: string, a: Addr, now: int) returns (expires: Option<int>)
      requires Valid()
      modifies this
      ensures Valid() && (View(), expires) == Hold(old(View()), c, body, mime, a, now)
    {
      Sweep(now);
      var exp := now + TTL;
      if c in m {
        BytesPut(m, c, m[c].(expires := exp));
        m := m[c := m[c].(expires := exp)];
        return Some(exp);
      }
      var n, size := CountOf(a);
      var add := |body|;
      if n >= PER_ADDR || size + add > ADDR_BYTES || bytes + add > ALL_BYTES { return None; }
      BytesPut(m, c, Draft(body, mime, a, exp));
      m := m[c := Draft(body, mime, a, exp)];
      bytes := bytes + add;
      expires := Some(exp);
    }

    method Get(c: Cid, now: int) returns (d: Option<Draft>)
      requires Valid()
      modifies this
      ensures Valid() && (View(), d) == Look(old(View()), c, now)
    {
      Sweep(now);
      d := if c in m then Some(m[c]) else None;
    }

    method Drop(c: Cid)
      requires Valid()
      modifies this`m, this`bytes
      ensures Valid() && m == old(m) - {c}
    {
      if c in m { Remove(c); } else { assert m - {c} == m; }
    }
  }
}
