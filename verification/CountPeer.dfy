/** Leader election behind a barrier: every peer joins, the rendezvous counts them and starts one
    token, the token elects the ring peer with the largest identifier, and the announcement
    reaches everybody. Every run is of the same length and ends in the same state. */
module CountPeer {
  import opened Ring

  datatype Msg = Join | Register(x: int) | Bcast | Send | Elect(i: int) | Announce(add: Address)

  /** The globals of one peer. */
  datatype Globals = Globals(nodeCounter: int, uid: int, maxUid: int, isLeader: bool, leader: Address)

  /** The deployment: ring peers 0..n-1 with their identifiers, the rendezvous n beside the ring, the
      number of peers it waits for, and where the rendezvous' own successor field points. */
  datatype Config = Config(uids: seq<int>, numOfPeers: int, rendezvousUid: int, spare: nat)

  function Size(c: Config): nat { |c.uids| }

  function Successor(c: Config, p: nat): nat { if p < Size(c) then Next(Size(c), p) else c.spare }

  /* ---------- The triggers ---------- */

  function Handle(c: Config, me: nat, g: Globals, m: Msg): (Globals, seq<Output<Msg>>) {
    match m
    case Join => (g.(maxUid := g.uid), [Output(Size(c), Register(1))])
    case Register(x) =>
      var g' := g.(nodeCounter := g.nodeCounter + x);
      (g', if g'.nodeCounter == c.numOfPeers then [Output(me, Bcast)] else [])
    case Bcast => (g, [Output(0, Send)])
    case Send => (g, [Output(Successor(c, me), Elect(g.maxUid))])
    case Elect(i) =>
      if i == g.uid then (g.(isLeader := true), [Output(Successor(c, me), Announce(At(me)))])
      else if i > g.maxUid then (g.(maxUid := i), [Output(me, Send)])
      else (g.(maxUid := g.uid), [Output(me, Send)])
    case Announce(add) =>
      if g.isLeader then (g.(leader := At(me)), [])
      else (g.(leader := add), [Output(Successor(c, me), Announce(add))])
  }

  /* ---------- The system ---------- */

  /** Peers with their queues, and how many elect messages and broadcasts have been handled. */
  datatype System = System(peers: seq<Globals>, queues: seq<seq<Msg>>, elects: nat, bcasts: nat)

  function UidOf(c: Config, p: nat): int { if p < Size(c) then c.uids[p] else c.rendezvousUid }

  function Start(c: Config): System {
    System(seq(Size(c) + 1, i requires 0 <= i < Size(c) + 1 => Globals(0, UidOf(c, i), 0, false, Nobody)),
           seq(Size(c) + 1, i => [Join]), 0, 0)
  }

  predicate Enabled(s: System, p: nat) { p < |s.peers| == |s.queues| && s.queues[p] != [] }

  /** Peer p takes the message at the head of its queue. */
  function StepOf(c: Config, s: System, p: nat): System
    requires Enabled(s, p)
  {
    var m := s.queues[p][0];
    var (g, out) := Handle(c, p, s.peers[p], m);
    System(s.peers[p := g], Deliver(s.queues[p := s.queues[p][1..]], out),
           s.elects + (if m.Elect? then 1 else 0), s.bcasts + (if m.Bcast? then 1 else 0))
  }

  ghost predicate Step(c: Config, s: System, s': System) {
    exists p :: Enabled(s, p) && s' == StepOf(c, s, p)
  }

  ghost predicate IsRun(c: Config, run: seq<System>) {
    run != [] && run[0] == Start(c) && forall k :: 0 < k < |run| ==> Step(c, run[k - 1], run[k])
  }

  /** Distinct identifiers on a nonempty ring, and a count that includes every peer. */
  ghost predicate Proper(c: Config) {
    Size(c) > 0 && Distinct(c.uids) && c.numOfPeers == Size(c) + 1
  }

  /* ---------- Phases ---------- */

  /** The largest identifier at positions 0..k. */
  function MaxUpTo(uids: seq<int>, k: nat): int
    requires k < |uids|
  {
    if k == 0 then uids[0] else if uids[k] > MaxUpTo(uids, k - 1) then uids[k] else MaxUpTo(uids, k - 1)
  }

  lemma {:induction false} MaxUpToBounds(uids: seq<int>, k: nat, m: nat)
    requires k < |uids| && IsMax(uids, m)
    ensures forall q :: 0 <= q <= k ==> uids[q] <= MaxUpTo(uids, k)
    ensures MaxUpTo(uids, k) <= uids[m]
    ensures m <= k ==> MaxUpTo(uids, k) == uids[m]
    ensures Distinct(uids) && k < m ==> MaxUpTo(uids, k) < uids[m]
  {
    if k > 0 { MaxUpToBounds(uids, k - 1, m); }
    if Distinct(uids) && k < m { assert uids[k] != uids[m] && uids[0] != uids[m]; }
  }

  /** Where the token is after h hops; the token makes at most two rounds. */
  function Pos(n: nat, h: nat): nat
    requires h < 2 * n
  {
    if h < n then h else h - n
  }

  /** What peer q holds in maxUid after h hops of the token, m being the final leader. */
  function MaxAfter(uids: seq<int>, m: nat, h: nat, q: nat): int
    requires q < |uids| && m < |uids|
  {
    if q + |uids| <= h then uids[m] else if q <= h then MaxUpTo(uids, q) else uids[q]
  }

  datatype Phase =
    | Gathering
    | Counted
    | Sending(h: nat)
    | Electing(h: nat)
    | Announcing(j: nat)
    | Done

  /** No message anywhere but [m] at p. */
  predicate OnlyAt(s: System, p: nat, m: Msg) {
    p < |s.queues| && s.queues[p] == [m] && forall q :: 0 <= q < |s.queues| && q != p ==> s.queues[q] == []
  }

  predicate Joined(s: System, p: nat)
    requires p < |s.queues|
  {
    s.queues[p] == [] || !s.queues[p][0].Join?
  }

  function CountJoined(s: System, k: nat): nat
    requires k <= |s.queues|
  {
    if k == 0 then 0 else CountJoined(s, k - 1) + if Joined(s, k - 1) then 1 else 0
  }

  function Registers(k: nat): seq<Msg> { seq(k, i => Register(1)) }

  predicate Fresh(c: Config, s: System, p: nat, joined: bool)
    requires p < |s.peers|
  {
    var g := s.peers[p];
    g.uid == UidOf(c, p) && !g.isLeader && g.leader == Nobody && (joined ==> g.maxUid == g.uid)
  }

  /** Registrations waiting at the rendezvous. */
  function Waiting(c: Config, s: System): int
    requires |s.peers| == |s.queues| == Size(c) + 1
  {
    CountJoined(s, Size(c) + 1) - s.peers[Size(c)].nodeCounter
  }

  predicate GatheringOk(c: Config, s: System)
    requires |s.peers| == |s.queues| == Size(c) + 1
  {
    var n := Size(c);
    && (forall p :: 0 <= p <= n ==> Fresh(c, s, p, Joined(s, p)))
    && (forall p :: 0 <= p < n ==> s.queues[p] == if Joined(s, p) then [] else [Join])
    && 0 <= Waiting(c, s) && s.peers[n].nodeCounter <= n
    && s.queues[n] == (if Joined(s, n) then [] else [Join]) + Registers(Waiting(c, s))
    && s.elects == 0 && s.bcasts == 0
  }

  predicate AllFresh(c: Config, s: System)
    requires |s.peers| == Size(c) + 1
  {
    forall p :: 0 <= p <= Size(c) ==> Fresh(c, s, p, true)
  }

  /** The ring peers during the token's h-th hop: nobody leads yet. */
  predicate Circulating(c: Config, s: System, m: nat, h: nat)
    requires |s.peers| == Size(c) + 1 && m < Size(c)
  {
    forall q :: 0 <= q < Size(c) ==>
      var g := s.peers[q];
      g.uid == c.uids[q] && g.maxUid == MaxAfter(c.uids, m, h, q) && !g.isLeader && g.leader == Nobody
  }

  /** The peer j hops after m. */
  function After(n: nat, m: nat, j: nat): nat
    requires m < n && j <= n
  {
    if m + j < n then m + j else m + j - n
  }

  /** After j peers following m have heard of the leader. */
  predicate Announced(c: Config, s: System, m: nat, j: nat)
    requires |s.peers| == Size(c) + 1 && m < Size(c) && j <= Size(c)
  {
    && (forall q :: 0 <= q < Size(c) ==> s.peers[q].isLeader == (q == m))
    && (forall i :: 1 <= i <= j ==> s.peers[After(Size(c), m, i)].leader == At(m))
  }

  predicate InPhase(c: Config, m: nat, s: System, ph: Phase)
    requires m < Size(c)
  {
    var n := Size(c);
    |s.peers| == |s.queues| == n + 1 &&
    match ph
    case Gathering => GatheringOk(c, s)
    case Counted => AllFresh(c, s) && OnlyAt(s, n, Bcast) && s.elects == 0 && s.bcasts == 0
    case Sending(h) =>
      h < n + m && Circulating(c, s, m, h) && OnlyAt(s, Pos(n, h), Send) && s.elects == h && s.bcasts == 1
    case Electing(h) =>
      0 < h <= n + m && Circulating(c, s, m, h - 1)
      && OnlyAt(s, Pos(n, h), Elect(MaxAfter(c.uids, m, h - 1, Pos(n, h - 1)))) && s.elects == h - 1 && s.bcasts == 1
    case Announcing(j) =>
      0 < j <= n && Announced(c, s, m, j - 1) && OnlyAt(s, After(n, m, j), Announce(At(m)))
      && s.elects == n + m && s.bcasts == 1
    case Done =>
      Announced(c, s, m, n) && (forall q :: 0 <= q <= n ==> s.queues[q] == []) && s.elects == n + m && s.bcasts == 1
  }

  /** Steps left in a phase. */
  function Remaining(c: Config, m: nat, s: System, ph: Phase): int
    requires m < Size(c) && InPhase(c, m, s, ph)
  {
    var n := Size(c);
    match ph
    case Gathering => 2 * (n + 1 - CountJoined(s, n + 1)) + Waiting(c, s) + 3 * n + 2 * m + 1
    case Counted => 3 * n + 2 * m + 1
    case Sending(h) => n + 2 * (n + m - h)
    case Electing(h) => n + 2 * (n + m - h) + 1
    case Announcing(j) => n - j + 1
    case Done => 0
  }

  /* ---------- Every step moves on by one ---------- */

  lemma OneOutput(queues: seq<seq<Msg>>, o: Output<Msg>)
    ensures Deliver(queues, [o]) ==
      if o.dest < |queues| then queues[o.dest := queues[o.dest] + [o.msg]] else queues
  {
    assert [o][1..] == [];
  }

  lemma {:induction false} CountSame(s: System, s': System, k: nat)
    requires k <= |s.queues| && k <= |s'.queues|
    requires forall p :: 0 <= p < k ==> Joined(s, p) == Joined(s', p)
    ensures CountJoined(s, k) == CountJoined(s', k)
  {
    if k > 0 { CountSame(s, s', k - 1); }
  }

  lemma {:induction false} CountFlip(s: System, s': System, k: nat, p: nat)
    requires p < k <= |s.queues| && k <= |s'.queues|
    requires !Joined(s, p) && Joined(s', p)
    requires forall q :: 0 <= q < k && q != p ==> Joined(s, q) == Joined(s', q)
    ensures CountJoined(s', k) == CountJoined(s, k) + 1
  {
    if k - 1 == p { CountSame(s, s', k - 1); } else { CountFlip(s, s', k - 1, p); }
  }

  lemma {:induction false} CountFull(s: System, k: nat, p: nat)
    requires k <= |s.queues|
    ensures CountJoined(s, k) <= k
    ensures CountJoined(s, k) == k && p < k ==> Joined(s, p)
  {
    if k > 0 { CountFull(s, k - 1, p); }
  }

  lemma {:induction false} CountNone(s: System, k: nat)
    requires k <= |s.queues| && forall p :: 0 <= p < k ==> !Joined(s, p)
    ensures CountJoined(s, k) == 0
  {
    if k > 0 { CountNone(s, k - 1); }
  }

  lemma StartGathering(c: Config, m: nat)
    requires Proper(c) && m < Size(c)
    ensures InPhase(c, m, Start(c), Gathering)
    ensures Remaining(c, m, Start(c), Gathering) == 5 * Size(c) + 2 * m + 3
  {
    CountNone(Start(c), Size(c) + 1);
    assert [Join] + Registers(0) == [Join];
  }

  lemma JoinMoves(c: Config, s: System, p: nat)
    requires |s.peers| == |s.queues| == Size(c) + 1 && Enabled(s, p) && s.queues[p][0].Join?
    ensures var s', n, popped := StepOf(c, s, p), Size(c), s.queues[p := s.queues[p][1..]];
      && s'.queues == popped[n := popped[n] + [Register(1)]]
      && s'.peers == s.peers[p := s.peers[p].(maxUid := s.peers[p].uid)]
      && s'.elects == s.elects && s'.bcasts == s.bcasts
  {
    OneOutput(s.queues[p := s.queues[p][1..]], Output(Size(c), Register(1)));
  }

  lemma JoinStep(c: Config, m: nat, s: System, p: nat)
    requires Proper(c) && m < Size(c) && InPhase(c, m, s, Gathering) && Enabled(s, p) && s.queues[p][0].Join?
    ensures InPhase(c, m, StepOf(c, s, p), Gathering)
    ensures Remaining(c, m, StepOf(c, s, p), Gathering) == Remaining(c, m, s, Gathering) - 1
  {
    var n, s' := Size(c), StepOf(c, s, p);
    JoinMoves(c, s, p);
    var w := Waiting(c, s);
    assert s.queues[p] == [Join] + (if p == n then Registers(w) else []);
    assert Registers(w) + [Register(1)] == Registers(w + 1);
    CountFlip(s, s', n + 1, p);
    assert s'.queues[n] == (if Joined(s', n) then [] else [Join]) + Registers(w + 1);
  }

  lemma RegisterStep(c: Config, m: nat, s: System, p: nat) returns (ph: Phase)
    requires Proper(c) && m < Size(c) && InPhase(c, m, s, Gathering) && Enabled(s, p) && !s.queues[p][0].Join?
    ensures InPhase(c, m, StepOf(c, s, p), ph)
    ensures Remaining(c, m, StepOf(c, s, p), ph) == Remaining(c, m, s, Gathering) - 1
  {
    var n, s' := Size(c), StepOf(c, s, p);
    assert p == n && Joined(s, n);
    var w := Waiting(c, s);
    assert s.queues[n] == Registers(w) && w > 0 && s.queues[n][0] == Register(1);
    assert s.queues[n][1..] == Registers(w - 1);
    var popped := s.queues[n := s.queues[n][1..]];
    if s.peers[n].nodeCounter + 1 == c.numOfPeers {
      CountFull(s, n + 1, 0);
      assert CountJoined(s, n + 1) == n + 1 && w == 1;
      forall q | 0 <= q <= n ensures Joined(s, q) && Fresh(c, s', q, true) {
        CountFull(s, n + 1, q);
        assert Fresh(c, s, q, Joined(s, q));
      }
      OneOutput(popped, Output(n, Bcast));
      assert Registers(0) == [] && s'.queues[n] == [Bcast];
      ph := Counted;
    } else {
      CountSame(s, s', n + 1);
      ph := Gathering;
    }
  }

  lemma CountedStep(c: Config, m: nat, s: System, p: nat)
    requires Proper(c) && m < Size(c) && IsMax(c.uids, m) && InPhase(c, m, s, Counted) && Enabled(s, p)
    ensures InPhase(c, m, StepOf(c, s, p), Sending(0))
  {
    OneOutput(s.queues[p := s.queues[p][1..]], Output(0, Send));
    forall q | 0 <= q < Size(c) ensures Fresh(c, s, q, true) && s.peers[q].maxUid == MaxAfter(c.uids, m, 0, q) {
      assert Fresh(c, s, q, true);
    }
  }

  lemma SendingStep(c: Config, m: nat, s: System, p: nat, h: nat)
    requires Proper(c) && m < Size(c) && InPhase(c, m, s, Sending(h)) && Enabled(s, p)
    ensures InPhase(c, m, StepOf(c, s, p), Electing(h + 1))
  {
    var n := Size(c);
    assert p == Pos(n, h) && Next(n, p) == Pos(n, h + 1);
    OneOutput(s.queues[p := s.queues[p][1..]], Output(Next(n, p), Elect(s.peers[p].maxUid)));
  }

  /** The arriving value against the peer's own identifier and stored maximum. */
  lemma ElectValue(c: Config, m: nat, h: nat)
    requires Proper(c) && m < Size(c) && IsMax(c.uids, m) && 0 < h <= Size(c) + m
    ensures var n := Size(c); var q := Pos(n, h); var i := MaxAfter(c.uids, m, h - 1, Pos(n, h - 1));
      && (i == c.uids[q] <==> h == n + m)
      && (h < n + m ==>
        MaxAfter(c.uids, m, h, q) == if i > MaxAfter(c.uids, m, h - 1, q) then i else c.uids[q])
      && forall r :: 0 <= r < n && r != q ==> MaxAfter(c.uids, m, h, r) == MaxAfter(c.uids, m, h - 1, r)
  {
    var n, q := Size(c), Pos(Size(c), h);
    var i := MaxAfter(c.uids, m, h - 1, Pos(n, h - 1));
    if h < n {
      MaxUpToBounds(c.uids, h - 1, m);
      MaxUpToIsUid(c.uids, h - 1, h);
    } else {
      MaxUpToBounds(c.uids, Pos(n, h - 1), m);
      MaxUpToBounds(c.uids, q, m);
      assert i == c.uids[m];
      if h < n + m { SameUidContra(c.uids, q, m); }
    }
  }

  lemma {:induction false} MaxUpToIsUid(uids: seq<int>, k: nat, q: nat)
    requires Distinct(uids) && k < q < |uids|
    ensures MaxUpTo(uids, k) != uids[q]
  {
    if k > 0 { MaxUpToIsUid(uids, k - 1, q); }
    assert uids[k] != uids[q];
  }

  lemma SameUidContra(uids: seq<int>, a: nat, b: nat)
    requires Distinct(uids) && a < |uids| && b < |uids| && a != b
    ensures uids[a] != uids[b]
  {
    if uids[a] == uids[b] { SameUid(uids, a, b); }
  }

  lemma ElectingStep(c: Config, m: nat, s: System, p: nat, h: nat) returns (ph: Phase)
    requires Proper(c) && m < Size(c) && IsMax(c.uids, m) && InPhase(c, m, s, Electing(h)) && Enabled(s, p)
    ensures InPhase(c, m, StepOf(c, s, p), ph)
    ensures Remaining(c, m, StepOf(c, s, p), ph) == Remaining(c, m, s, Electing(h)) - 1
  {
    var n := Size(c);
    var popped := s.queues[p := s.queues[p][1..]];
    assert p == Pos(n, h);
    ElectValue(c, m, h);
    if h == n + m {
      assert p == m && Next(n, m) == After(n, m, 1);
      OneOutput(popped, Output(Next(n, p), Announce(At(p))));
      ph := Announcing(1);
    } else {
      OneOutput(popped, Output(p, Send));
      ph := Sending(h);
    }
  }

  lemma AnnouncingStep(c: Config, m: nat, s: System, p: nat, j: nat) returns (ph: Phase)
    requires Proper(c) && m < Size(c) && InPhase(c, m, s, Announcing(j)) && Enabled(s, p)
    ensures InPhase(c, m, StepOf(c, s, p), ph)
    ensures Remaining(c, m, StepOf(c, s, p), ph) == Remaining(c, m, s, Announcing(j)) - 1
  {
    var n := Size(c);
    var popped := s.queues[p := s.queues[p][1..]];
    assert p == After(n, m, j);
    if j == n {
      assert p == m;
      ph := Done;
    } else {
      assert p != m && Next(n, p) == After(n, m, j + 1);
      OneOutput(popped, Output(Next(n, p), Announce(At(m))));
      ph := Announcing(j + 1);
    }
  }

  /** Whichever peer moves, the system goes to a phase with exactly one step fewer to go. */
  lemma StepAdvances(c: Config, m: nat, s: System, p: nat, ph: Phase) returns (ph': Phase)
    requires Proper(c) && m < Size(c) && IsMax(c.uids, m) && InPhase(c, m, s, ph) && Enabled(s, p)
    ensures InPhase(c, m, StepOf(c, s, p), ph')
    ensures Remaining(c, m, StepOf(c, s, p), ph') == Remaining(c, m, s, ph) - 1
  {
    match ph
    case Gathering =>
      if s.queues[p][0].Join? { JoinStep(c, m, s, p); ph' := Gathering; } else { ph' := RegisterStep(c, m, s, p); }
    case Counted => CountedStep(c, m, s, p); ph' := Sending(0);
    case Sending(h) => SendingStep(c, m, s, p, h); ph' := Electing(h + 1);
    case Electing(h) => ph' := ElectingStep(c, m, s, p, h);
    case Announcing(j) => ph' := AnnouncingStep(c, m, s, p, j);
    case Done => ph' := Done;
  }

  /* ---------- One peer ---------- */

  /** The first k positions. */
  function FirstPeers(k: nat): (s: set<nat>)
    ensures |s| == k && forall p: nat :: p in s <==> p < k
  {
    if k == 0 then {}
    else
      var before := FirstPeers(k - 1);
      assert k - 1 !in before;
      before + {k - 1}
  }

  /** Ring peers and the rendezvous. */
  function Everybody(c: Config): set<nat> { FirstPeers(Size(c) + 1) }

  /** Only the full set of peers is as large as the number the rendezvous waits for. */
  lemma AllRegistered(c: Config, registered: set<nat>)
    requires Proper(c) && registered <= Everybody(c)
    ensures |registered| == c.numOfPeers <==> registered == Everybody(c)
  {
    SubsetSize(registered, Everybody(c));
  }

  lemma SubsetSize(a: set<nat>, b: set<nat>)
    requires a <= b
    ensures |a| <= |b| && (|a| == |b| ==> a == b)
  {
    assert b == a + (b - a);
  }

  /** One peer of the program; its triggers update the globals and return what they send. */
  class Peer {
    const c: Config
    const me: nat
    const uid: int
    var nodeCounter: int
    var maxUid: int
    var isLeader: bool
    var leader: Address

    function State(): Globals
      reads this
    {
      Globals(nodeCounter, uid, maxUid, isLeader, leader)
    }

    /** In its place in a deployment whose largest ring identifier is at m. */
    ghost predicate Placed(m: nat) {
      Proper(c) && m < Size(c) && IsMax(c.uids, m) && me <= Size(c) && uid == UidOf(c, me)
    }

    constructor (c: Config, me: nat, uid: int)
      ensures this.c == c && this.me == me && this.uid == uid
      ensures State() == Globals(0, uid, 0, false, Nobody)
    {
      this.c, this.me, this.uid := c, me, uid;
      nodeCounter, maxUid, isLeader, leader := 0, 0, false, Nobody;
    }

    /** A peer that has joined holds what it should before the token's first hop, and the rendezvous is
        told of one more. */
    method OnJoin(ghost m: nat) returns (out: seq<Output<Msg>>)
      requires Placed(m)
      modifies this
      ensures me < Size(c) ==> maxUid == MaxAfter(c.uids, m, 0, me)
      ensures out == [Output(Size(c), Register(1))]
      ensures (State(), out) == Handle(c, me, old(State()), Join)
    {
      maxUid := uid;
      out := [Output(Size(c), Register(1))];
    }

    /** The rendezvous, having counted the registered peers, starts the token exactly when the newcomer
        is the last one missing. */
    method OnRegister(x: int, ghost registered: set<nat>, ghost p: nat) returns (out: seq<Output<Msg>>)
      requires Proper(c) && x == 1 && nodeCounter == |registered| && p !in registered && registered + {p} <= Everybody(c)
      modifies this
      ensures nodeCounter == |registered + {p}|
      ensures out == if registered + {p} == Everybody(c) then [Output(me, Bcast)] else []
      ensures (State(), out) == Handle(c, me, old(State()), Register(x))
    {
      AllRegistered(c, registered + {p});
      nodeCounter := nodeCounter + x;
      if nodeCounter == c.numOfPeers { out := [Output(me, Bcast)]; } else { out := []; }
    }

    /** The token starts at the first peer of the ring, whichever peer counted. */
    method OnBcast() returns (out: seq<Output<Msg>>)
      requires Proper(c)
      ensures out == [Output(Pos(Size(c), 0), Send)]
      ensures (State(), out) == Handle(c, me, State(), Bcast)
    {
      out := [Output(0, Send)];
    }

    /** The token goes from its h-th position to the next with what the peer holds there. */
    method OnSend(ghost m: nat, ghost h: nat) returns (out: seq<Output<Msg>>)
      requires Placed(m) && h < Size(c) + m && me == Pos(Size(c), h) && maxUid == MaxAfter(c.uids, m, h, me)
      ensures out == [Output(Pos(Size(c), h + 1), Elect(MaxAfter(c.uids, m, h, Pos(Size(c), h))))]
      ensures (State(), out) == Handle(c, me, State(), Send)
    {
      out := [Output(Successor(c, me), Elect(maxUid))];
    }

    /** The peer with the largest identifier, and it only, declares itself leader, on the token's hop
        n + m; on any earlier hop the peer holds the largest identifier the token has met. */
    method OnElect(i: int, ghost m: nat, ghost h: nat) returns (out: seq<Output<Msg>>)
      requires Placed(m) && 0 < h <= Size(c) + m && me == Pos(Size(c), h) && !isLeader
      requires i == MaxAfter(c.uids, m, h - 1, Pos(Size(c), h - 1)) && maxUid == MaxAfter(c.uids, m, h - 1, me)
      modifies this
      ensures (isLeader <==> h == Size(c) + m) && (isLeader ==> me == m)
      ensures !isLeader ==> maxUid == MaxAfter(c.uids, m, h, me)
      ensures out == if isLeader then [Output(After(Size(c), m, 1), Announce(At(m)))] else [Output(me, Send)]
      ensures (State(), out) == Handle(c, me, old(State()), Elect(i))
    {
      ElectValue(c, m, h);
      if i == uid {
        isLeader := true;
        out := [Output(Successor(c, me), Announce(At(me)))];
      } else if i > maxUid {
        maxUid := i;
        out := [Output(me, Send)];
      } else {
        maxUid := uid;
        out := [Output(me, Send)];
      }
    }

    /** Everybody who hears of the leader records the same one, and the announcement ends where it
        began. */
    method OnAnnounce(add: Address, ghost m: nat, ghost j: nat) returns (out: seq<Output<Msg>>)
      requires Placed(m) && 0 < j <= Size(c) && me == After(Size(c), m, j) && (isLeader <==> me == m) && add == At(m)
      modifies this
      ensures leader == At(m) && maxUid == old(maxUid) && isLeader == old(isLeader)
      ensures out == if j == Size(c) then [] else [Output(After(Size(c), m, j + 1), Announce(At(m)))]
      ensures (State(), out) == Handle(c, me, old(State()), Announce(add))
    {
      if isLeader {
        leader := At(me);
        out := [];
      } else {
        leader := add;
        out := [Output(Successor(c, me), Announce(add))];
      }
    }
  }

  /* ---------- Runs ---------- */

  lemma {:induction false} RunPhase(c: Config, m: nat, run: seq<System>, k: nat) returns (ph: Phase)
    requires Proper(c) && m < Size(c) && IsMax(c.uids, m) && IsRun(c, run) && k < |run|
    ensures InPhase(c, m, run[k], ph)
    ensures Remaining(c, m, run[k], ph) == 5 * Size(c) + 2 * m + 3 - k
  {
    if k == 0 {
      StartGathering(c, m);
      ph := Gathering;
    } else {
      var was := RunPhase(c, m, run, k - 1);
      assert Step(c, run[k - 1], run[k]);
      var p :| Enabled(run[k - 1], p) && run[k] == StepOf(c, run[k - 1], p);
      ph := StepAdvances(c, m, run[k - 1], p, was);
    }
  }

  /** Nobody has a message. */
  ghost predicate Quiescent(s: System) { forall p :: 0 <= p < |s.queues| ==> s.queues[p] == [] }

  lemma QuiescentIsDone(c: Config, m: nat, s: System, ph: Phase)
    requires Proper(c) && m < Size(c) && InPhase(c, m, s, ph)
    ensures Quiescent(s) <==> Remaining(c, m, s, ph) == 0
  {
    var n := Size(c);
    match ph
    case Gathering =>
      CountFull(s, n + 1, 0);
      if Quiescent(s) {
        assert s.queues[n] == [];
        assert Waiting(c, s) == 0;
        forall p | 0 <= p < n + 1 ensures Joined(s, p) {}
        CountAll(s, n + 1);
        assert false;
      }
    case Counted => assert s.queues[n] == [Bcast];
    case Sending(h) => assert s.queues[Pos(n, h)] == [Send];
    case Electing(h) => assert s.queues[Pos(n, h)] != [];
    case Announcing(j) => assert s.queues[After(n, m, j)] != [];
    case Done =>
  }

  lemma {:induction false} CountAll(s: System, k: nat)
    requires k <= |s.queues| && forall p :: 0 <= p < k ==> Joined(s, p)
    ensures CountJoined(s, k) == k
  {
    if k > 0 { CountAll(s, k - 1); }
  }

  lemma AfterReaches(n: nat, m: nat, q: nat) returns (j: nat)
    requires m < n && q < n
    ensures 1 <= j <= n && After(n, m, j) == q
  {
    j := if q > m then q - m else q + n - m;
  }

  /** Every run is finite: it takes no more than 5n + 2m + 3 steps, m being the ring position of the
      largest identifier, and it is over exactly when it has taken that many. */
  lemma EveryRunTerminates(c: Config, m: nat, run: seq<System>)
    requires Proper(c) && m < Size(c) && IsMax(c.uids, m) && IsRun(c, run)
    ensures |run| - 1 <= 5 * Size(c) + 2 * m + 3
    ensures Quiescent(run[|run| - 1]) <==> |run| - 1 == 5 * Size(c) + 2 * m + 3
  {
    var ph := RunPhase(c, m, run, |run| - 1);
    QuiescentIsDone(c, m, run[|run| - 1], ph);
    RemainingNat(c, m, run[|run| - 1], ph);
  }

  lemma RunExtends(c: Config, run: seq<System>, p: nat)
    requires IsRun(c, run) && Enabled(run[|run| - 1], p)
    ensures IsRun(c, run + [StepOf(c, run[|run| - 1], p)])
  {
    var run' := run + [StepOf(c, run[|run| - 1], p)];
    forall k | 0 < k < |run'| ensures Step(c, run'[k - 1], run'[k]) {
      assert run'[k - 1] == run[k - 1];
      if k < |run| { assert run'[k] == run[k]; }
    }
  }

  /** And whatever has happened so far, the run can be carried on until nobody has a message. */
  lemma {:induction false} EveryRunFinishes(c: Config, m: nat, run: seq<System>) returns (full: seq<System>)
    requires Proper(c) && m < Size(c) && IsMax(c.uids, m) && IsRun(c, run)
    ensures IsRun(c, full) && run <= full && Quiescent(full[|full| - 1])
    decreases 5 * Size(c) + 2 * m + 4 - |run|
  {
    EveryRunTerminates(c, m, run);
    var s := run[|run| - 1];
    if Quiescent(s) {
      full := run;
    } else {
      var ph := RunPhase(c, m, run, |run| - 1);
      var p :| 0 <= p < |s.queues| && s.queues[p] != [];
      RunExtends(c, run, p);
      full := EveryRunFinishes(c, m, run + [StepOf(c, s, p)]);
    }
  }

  lemma RemainingNat(c: Config, m: nat, s: System, ph: Phase)
    requires Proper(c) && m < Size(c) && InPhase(c, m, s, ph)
    ensures Remaining(c, m, s, ph) >= 0
  {
    if ph.Gathering? { CountFull(s, Size(c) + 1, 0); }
  }

  /** When a run is over, one token was started, it was handled in n + m elect deliveries (fewer than
      2n), the peer with the largest identifier and nobody else on the ring leads, and the whole
      ring agrees on it. */
  lemma RunElectsMaximum(c: Config, m: nat, run: seq<System>, q: nat)
    requires Proper(c) && m < Size(c) && IsMax(c.uids, m) && IsRun(c, run) && Quiescent(run[|run| - 1]) && q < Size(c)
    ensures var s := run[|run| - 1];
      && |s.peers| == Size(c) + 1
      && s.bcasts == 1 && s.elects == Size(c) + m < 2 * Size(c)
      && (s.peers[q].isLeader <==> q == m)
      && s.peers[q].leader == At(m)
  {
    var s := run[|run| - 1];
    var ph := RunPhase(c, m, run, |run| - 1);
    QuiescentIsDone(c, m, s, ph);
    match ph
    case Done => var j := AfterReaches(Size(c), m, q);
    case Gathering => CountFull(s, Size(c) + 1, 0);
    case _ =>
  }

  /** At no moment of any run has a second token been started, and none before all have joined. */
  lemma OneTokenAfterAllJoined(c: Config, m: nat, run: seq<System>, k: nat)
    requires Proper(c) && m < Size(c) && IsMax(c.uids, m) && IsRun(c, run) && k < |run|
    ensures |run[k].queues| == Size(c) + 1 && run[k].bcasts <= 1
    ensures run[k].bcasts == 1 ==> forall p :: 0 <= p <= Size(c) ==> Join !in run[k].queues[p]
  {
    var ph := RunPhase(c, m, run, k);
  }
}
