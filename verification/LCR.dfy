/** Leader election on an asynchronous ring: under every interleaving only the peer with the
    largest identifier can declare itself leader, and nobody ever follows another peer. */
module LCR {
  import opened Ring

  datatype Msg = Init | Send | Elect(i: int) | Announce(add: Address)

  /** The globals of one peer. */
  datatype Globals = Globals(uid: int, maxUid: int, isLeader: bool, leader: Address)

  /* ---------- The triggers ---------- */

  /** What a peer does with one message: its globals afterwards and the messages it sends. */
  function Handle(me: nat, succ: nat, g: Globals, m: Msg): (Globals, seq<Output<Msg>>) {
    match m
    case Init => (g.(maxUid := g.uid), [Output(me, Send)])
    case Send => (g, [Output(succ, Elect(g.maxUid))])
    case Elect(i) =>
      if i == g.uid then (g.(isLeader := true), [Output(succ, Announce(At(me)))])
      else if i > g.maxUid then (g.(maxUid := i), [Output(me, Send)])
      else (g.(maxUid := g.uid), [Output(me, Send)])
    case Announce(add) =>
      if g.isLeader then (g.(leader := At(me)), [])
      else (g.(leader := add), [Output(succ, Announce(add))])
  }

  /* ---------- The ring ---------- */

  /** All peers in ring order, each with its own queue of undelivered messages. */
  datatype System = System(peers: seq<Globals>, queues: seq<seq<Msg>>)

  ghost predicate Shaped(uids: seq<int>, s: System) {
    && |s.peers| == |s.queues| == |uids|
    && forall p :: 0 <= p < |uids| ==> s.peers[p].uid == uids[p]
  }

  function Start(uids: seq<int>): System {
    System(seq(|uids|, i requires 0 <= i < |uids| => Globals(uids[i], 0, false, Nobody)),
         seq(|uids|, i => [Init]))
  }

  /** Peer p takes the message at the head of its queue. */
  function StepOf(s: System, p: nat): System
    requires p < |s.peers| == |s.queues| && s.queues[p] != []
  {
    var (g, out) := Handle(p, Next(|s.peers|, p), s.peers[p], s.queues[p][0]);
    System(s.peers[p := g], Deliver(s.queues[p := s.queues[p][1..]], out))
  }

  ghost predicate Step(s: System, s': System) {
    |s.peers| == |s.queues| && exists p :: 0 <= p < |s.peers| && s.queues[p] != [] && s' == StepOf(s, p)
  }

  /** A finite run from the start: any peer with a message may move next. */
  ghost predicate IsRun(uids: seq<int>, run: seq<System>) {
    run != [] && run[0] == Start(uids) && forall k :: 0 < k < |run| ==> Step(run[k - 1], run[k])
  }

  /* ---------- The invariant ---------- */

  /** i is the identifier of the peer d hops before p, and beats every peer from there up to p. */
  predicate Held(uids: seq<int>, i: int, p: nat, d: nat) {
    p < |uids| && d < |uids| && uids[Back(|uids|, p, d)] == i
    && forall j :: 0 <= j < d ==> uids[Back(|uids|, p, j)] < i
  }

  /** As Held, for a value that has arrived at p and has yet to be compared with p's own. */
  predicate Arrived(uids: seq<int>, i: int, p: nat, d: nat) {
    p < |uids| && 0 < d <= |uids| && uids[Back(|uids|, p, d)] == i
    && forall j :: 0 < j < d ==> uids[Back(|uids|, p, j)] < i
  }

  ghost predicate MsgOk(uids: seq<int>, p: nat, m: Msg) {
    match m
    case Init => false
    case Send => true
    case Elect(i) => exists d :: Arrived(uids, i, p, d)
    case Announce(add) => add.At? && IsMax(uids, add.p)
  }

  /** A peer starts with init, handled before anything else. */
  ghost predicate QueueOk(uids: seq<int>, p: nat, q: seq<Msg>) {
    forall k :: 0 <= k < |q| ==> (k == 0 && q[k].Init?) || MsgOk(uids, p, q[k])
  }

  /** The peer's maximum beats every identifier from where it comes from up to the peer. */
  ghost predicate Holds(uids: seq<int>, p: nat, g: Globals) { exists d :: Held(uids, g.maxUid, p, d) }

  /** Whoever leads or is named a leader has the largest identifier. */
  ghost predicate Claims(uids: seq<int>, p: nat, g: Globals) {
    (g.isLeader ==> IsMax(uids, p)) && (g.leader.At? ==> IsMax(uids, g.leader.p))
  }

  ghost predicate PeerOk(uids: seq<int>, p: nat, g: Globals, q: seq<Msg>) {
    ((q != [] && q[0].Init?) || Holds(uids, p, g)) && Claims(uids, p, g)
  }

  ghost predicate Inv(uids: seq<int>, s: System) {
    && Shaped(uids, s)
    && forall p :: 0 <= p < |uids| ==> QueueOk(uids, p, s.queues[p]) && PeerOk(uids, p, s.peers[p], s.queues[p])
  }

  lemma SendArrives(uids: seq<int>, i: int, p: nat, d: nat)
    requires Held(uids, i, p, d)
    ensures Arrived(uids, i, Next(|uids|, p), d + 1)
  {
    var n, q := |uids|, Next(|uids|, p);
    assert Back(n, q, d + 1) == Back(n, p, d);
    forall j | 0 < j < d + 1 ensures uids[Back(n, q, j)] < i {
      assert Back(n, q, j) == Back(n, p, j - 1);
    }
  }

  lemma OwnHeld(uids: seq<int>, p: nat)
    requires p < |uids|
    ensures Held(uids, uids[p], p, 0)
  {}

  /** A value that comes back to its owner has beaten everybody else. */
  lemma ReturnedIsMax(uids: seq<int>, p: nat, d: nat)
    requires Distinct(uids) && p < |uids| && Arrived(uids, uids[p], p, d)
    ensures IsMax(uids, p)
  {
    var n := |uids|;
    SameUid(uids, Back(n, p, d), p);
    assert d == n;
    forall q | 0 <= q < n ensures uids[q] <= uids[p] {
      if q != p {
        var j := if q < p then p - q else p + n - q;
        assert Back(n, p, j) == q;
      }
    }
  }

  lemma OneMax(uids: seq<int>, a: nat, b: nat)
    requires Distinct(uids) && IsMax(uids, a) && IsMax(uids, b)
    ensures a == b
  {
    SameUid(uids, a, b);
  }

  /** A larger value that arrives is held next. */
  lemma LargerHeld(uids: seq<int>, i: int, p: nat, d: nat)
    requires Arrived(uids, i, p, d) && uids[p] < i
    ensures Held(uids, i, p, d)
  {
    assert Back(|uids|, p, 0) == p && Back(|uids|, p, |uids|) == p;
  }

  lemma HeldAboveOwn(uids: seq<int>, i: int, p: nat, d: nat)
    requires Held(uids, i, p, d)
    ensures uids[p] <= i
  {
    assert Back(|uids|, p, 0) == p;
  }

  lemma StartOk(uids: seq<int>)
    ensures Inv(uids, Start(uids))
  {}

  ghost predicate OutOk(uids: seq<int>, out: seq<Output<Msg>>) {
    forall k :: 0 <= k < |out| ==> MsgOk(uids, out[k].dest, out[k].msg)
  }

  /** Handling one message keeps the peer and sends only admissible messages. */
  lemma HandleOk(uids: seq<int>, p: nat, g: Globals, q: seq<Msg>)
    requires Distinct(uids) && p < |uids| && q != [] && g.uid == uids[p]
    requires QueueOk(uids, p, q) && PeerOk(uids, p, g, q)
    ensures var (g', out) := Handle(p, Next(|uids|, p), g, q[0]);
      g'.uid == uids[p] && OutOk(uids, out) && PeerOk(uids, p, g', q[1..])
  {
    var succ := Next(|uids|, p);
    var (g', out) := Handle(p, succ, g, q[0]);
    assert forall k :: 0 <= k < |q[1..]| ==> q[1..][k] == q[k + 1] && !q[k + 1].Init?;
    OwnHeld(uids, p);
    match q[0]
    case Init =>
    case Send =>
      var d :| Held(uids, g.maxUid, p, d);
      SendArrives(uids, g.maxUid, p, d);
    case Elect(i) =>
      var d :| Arrived(uids, i, p, d);
      var e :| Held(uids, g.maxUid, p, e);
      HeldAboveOwn(uids, g.maxUid, p, e);
      if i == g.uid { ReturnedIsMax(uids, p, d); }
      else if i > g.maxUid { LargerHeld(uids, i, p, d); }
    case Announce(add) =>
  }

  lemma {:induction false} DeliverOk(uids: seq<int>, queues: seq<seq<Msg>>, out: seq<Output<Msg>>)
    requires |queues| == |uids| && OutOk(uids, out)
    requires forall p :: 0 <= p < |uids| ==> QueueOk(uids, p, queues[p])
    ensures |Deliver(queues, out)| == |uids|
    ensures forall p :: 0 <= p < |uids| ==> QueueOk(uids, p, Deliver(queues, out)[p])
    ensures forall p :: 0 <= p < |uids| ==> queues[p] <= Deliver(queues, out)[p]
    decreases |out|
  {
    if out != [] {
      var o := out[0];
      assert forall k :: 0 <= k < |out[1..]| ==> out[1..][k] == out[k + 1];
      if o.dest < |queues| {
        DeliverOk(uids, queues[o.dest := queues[o.dest] + [o.msg]], out[1..]);
      } else {
        DeliverOk(uids, queues, out[1..]);
      }
    }
  }

  /* ---------- One peer ---------- */

  /** One peer of the program; its triggers update the globals and return what they send. */
  class Peer {
    ghost const uids: seq<int>
    const me: nat
    const successor: nat
    const uid: int
    var maxUid: int
    var isLeader: bool
    var leader: Address

    function State(): Globals
      reads this
    {
      Globals(uid, maxUid, isLeader, leader)
    }

    /** On a ring of distinct identifiers, in its place, and right about the leader if it names one. */
    ghost predicate Valid()
      reads this
    {
      && Distinct(uids) && me < |uids| && uid == uids[me] && successor == Next(|uids|, me)
      && Claims(uids, me, State())
    }

    constructor (ghost uids: seq<int>, me: nat, successor: nat, uid: int)
      requires Distinct(uids) && me < |uids| && uid == uids[me] && successor == Next(|uids|, me)
      ensures this.uids == uids && this.me == me && Valid()
      ensures State() == Globals(uid, 0, false, Nobody)
    {
      this.uids, this.me, this.successor, this.uid := uids, me, successor, uid;
      maxUid, isLeader, leader := 0, false, Nobody;
    }

    /** From now on the peer holds an identifier that beats the ones behind it: its own. */
    method OnInit() returns (out: seq<Output<Msg>>)
      requires Valid()
      modifies this
      ensures Valid() && Holds(uids, me, State()) && maxUid == uids[me] && OutOk(uids, out)
      ensures (State(), out) == Handle(me, successor, old(State()), Init)
    {
      maxUid := uid;
      out := [Output(me, Send)];
      OwnHeld(uids, me);
    }

    /** What is sent has beaten everybody up to the successor. */
    method OnSend() returns (out: seq<Output<Msg>>)
      requires Valid() && Holds(uids, me, State())
      ensures exists i, d :: out == [Output(successor, Elect(i))] && uids[me] <= i && Arrived(uids, i, successor, d)
      ensures (State(), out) == Handle(me, successor, State(), Send)
    {
      out := [Output(successor, Elect(maxUid))];
      ghost var d :| Held(uids, maxUid, me, d);
      SendArrives(uids, maxUid, me, d);
      HeldAboveOwn(uids, maxUid, me, d);
    }

    /** A peer declares itself leader exactly when its own identifier has come back, and then it has the
        largest; otherwise it keeps the larger of what it held and what arrived, or its own. */
    method OnElect(i: int) returns (out: seq<Output<Msg>>)
      requires Valid() && Holds(uids, me, State()) && MsgOk(uids, me, Elect(i))
      modifies this
      ensures Valid() && Holds(uids, me, State()) && OutOk(uids, out)
      ensures isLeader <==> old(isLeader) || i == uid
      ensures isLeader ==> IsMax(uids, me)
      ensures if i == uid then out == [Output(successor, Announce(At(me)))] else out == [Output(me, Send)]
      ensures uids[me] <= maxUid && (i != uid ==> maxUid == i || (maxUid == uids[me] && i <= old(maxUid)))
      ensures (State(), out) == Handle(me, successor, old(State()), Elect(i))
    {
      HandleOk(uids, me, State(), [Elect(i)]);
      if i == uid {
        isLeader := true;
        out := [Output(successor, Announce(At(me)))];
      } else if i > maxUid {
        maxUid := i;
        out := [Output(me, Send)];
      } else {
        maxUid := uid;
        out := [Output(me, Send)];
      }
      ghost var d :| Held(uids, maxUid, me, d);
      HeldAboveOwn(uids, maxUid, me, d);
    }

    /** Whoever handles an announcement ends up with the announced leader, the one who announced it
        included, and everybody but the leader passes it on. */
    method OnAnnounce(add: Address) returns (out: seq<Output<Msg>>)
      requires Valid() && MsgOk(uids, me, Announce(add))
      modifies this
      ensures Valid() && OutOk(uids, out)
      ensures leader == add && IsMax(uids, add.p) && maxUid == old(maxUid) && isLeader == old(isLeader)
      ensures out == if isLeader then [] else [Output(successor, Announce(leader))]
      ensures (State(), out) == Handle(me, successor, old(State()), Announce(add))
    {
      if isLeader {
        OneMax(uids, me, add.p);
        leader := At(me);
        out := [];
      } else {
        leader := add;
        out := [Output(successor, Announce(add))];
      }
    }

    /** A peer reacts to its next message by the trigger of that name. */
    method Receive(m: Msg) returns (out: seq<Output<Msg>>)
      requires Valid() && (m.Init? || (Holds(uids, me, State()) && MsgOk(uids, me, m)))
      modifies this
      ensures Valid() && Holds(uids, me, State()) && OutOk(uids, out)
      ensures (State(), out) == Handle(me, successor, old(State()), m)
    {
      match m
      case Init => out := OnInit();
      case Send => out := OnSend();
      case Elect(i) => out := OnElect(i);
      case Announce(add) => out := OnAnnounce(add);
    }
  }

  /* ---------- Runs ---------- */

  lemma StepKeepsInv(uids: seq<int>, s: System, p: nat)
    requires Distinct(uids) && Inv(uids, s) && p < |uids| && s.queues[p] != []
    ensures Inv(uids, StepOf(s, p))
  {
    var q := s.queues[p];
    var (g, out) := Handle(p, Next(|uids|, p), s.peers[p], q[0]);
    HandleOk(uids, p, s.peers[p], q);
    var popped := s.queues[p := q[1..]];
    assert QueueOk(uids, p, q[1..]) by {
      assert forall k :: 0 <= k < |q[1..]| ==> q[1..][k] == q[k + 1];
    }
    DeliverOk(uids, popped, out);
    var s' := StepOf(s, p);
    forall r | 0 <= r < |uids| ensures PeerOk(uids, r, s'.peers[r], s'.queues[r]) {
      var was := popped[r];
      assert PeerOk(uids, r, s'.peers[r], was);
      if was != [] { assert s'.queues[r][0] == was[0]; }
    }
  }

  lemma {:induction false} RunKeepsInv(uids: seq<int>, run: seq<System>, k: nat)
    requires Distinct(uids) && IsRun(uids, run) && k < |run|
    ensures Inv(uids, run[k])
  {
    if k == 0 {
      StartOk(uids);
    } else {
      RunKeepsInv(uids, run, k - 1);
      var s := run[k - 1];
      assert Step(s, run[k]);
      var p :| 0 <= p < |s.peers| && s.queues[p] != [] && run[k] == StepOf(s, p);
      StepKeepsInv(uids, s, p);
    }
  }

  /** Safety under every interleaving: only the peer with the largest identifier ever sets isLeader,
      and every leader recorded anywhere is that peer or nobody. */
  lemma OnlyMaximumLeads(uids: seq<int>, run: seq<System>, k: nat, p: nat)
    requires Distinct(uids) && IsRun(uids, run) && k < |run| && p < |uids|
    ensures |run[k].peers| == |uids|
    ensures run[k].peers[p].isLeader ==> IsMax(uids, p)
    ensures run[k].peers[p].leader == Nobody || exists m :: IsMax(uids, m) && run[k].peers[p].leader == At(m)
  {
    RunKeepsInv(uids, run, k);
  }

  /** At any two moments of a run, no two peers disagree about the leader. */
  lemma LeadersAgree(uids: seq<int>, run: seq<System>, k1: nat, k2: nat, p1: nat, p2: nat)
    requires Distinct(uids) && IsRun(uids, run) && k1 < |run| && k2 < |run| && p1 < |uids| && p2 < |uids|
    requires run[k1].peers != [] && run[k2].peers != []
    ensures |run[k1].peers| == |uids| == |run[k2].peers|
    ensures run[k1].peers[p1].isLeader && run[k2].peers[p2].isLeader ==> p1 == p2
    ensures run[k1].peers[p1].leader.At? && run[k2].peers[p2].leader.At? ==>
      run[k1].peers[p1].leader == run[k2].peers[p2].leader
  {
    RunKeepsInv(uids, run, k1);
    RunKeepsInv(uids, run, k2);
    forall a: nat, b: nat | IsMax(uids, a) && IsMax(uids, b) ensures a == b {
      OneMax(uids, a, b);
    }
  }

  /* ---------- A quiet ring has elected ---------- */

  /** Messages that will have to come back to somebody: everything but announcements. */
  function Tokens(q: seq<Msg>): nat
    decreases |q|
  {
    if q == [] then 0 else (if q[0].Announce? then 0 else 1) + Tokens(q[1..])
  }

  function AllTokens(queues: seq<seq<Msg>>): nat
    decreases |queues|
  {
    if queues == [] then 0 else Tokens(queues[0]) + AllTokens(queues[1..])
  }

  lemma {:induction false} TokensAppended(q: seq<Msg>, m: Msg)
    ensures Tokens(q + [m]) == Tokens(q) + if m.Announce? then 0 else 1
    decreases |q|
  {
    if q != [] {
      assert (q + [m])[1..] == q[1..] + [m];
      TokensAppended(q[1..], m);
    } else {
      assert [m][1..] == [];
    }
  }

  lemma {:induction false} TokensUpdated(queues: seq<seq<Msg>>, p: nat, q: seq<Msg>)
    requires p < |queues|
    ensures AllTokens(queues[p := q]) == AllTokens(queues) - Tokens(queues[p]) + Tokens(q)
    decreases |queues|
  {
    if p > 0 {
      assert queues[p := q][1..] == queues[1..][p - 1 := q];
      TokensUpdated(queues[1..], p - 1, q);
    } else {
      assert queues[p := q][1..] == queues[1..];
    }
  }

  lemma {:induction false} NoTokens(queues: seq<seq<Msg>>)
    requires forall p :: 0 <= p < |queues| ==> queues[p] == []
    ensures AllTokens(queues) == 0
    decreases |queues|
  {
    if queues != [] { NoTokens(queues[1..]); }
  }

  lemma {:induction false} StartTokens(queues: seq<seq<Msg>>)
    requires forall p :: 0 <= p < |queues| ==> queues[p] == [Init]
    ensures AllTokens(queues) == |queues|
    decreases |queues|
  {
    if queues != [] {
      assert [Init][1..] == [];
      StartTokens(queues[1..]);
    }
  }

  /** The peer j hops behind m. */
  function After(n: nat, m: nat, j: nat): nat
    requires m < n && j <= n
  {
    if m + j < n then m + j else m + j - n
  }

  /** The j peers behind m have recorded it, and the news is on its way to the next, or everybody has. */
  predicate NewsAt(s: System, m: nat, j: nat) {
    var n := |s.peers|;
    && m < n == |s.queues| && j <= n
    && (forall i :: 1 <= i <= j ==> s.peers[After(n, m, i)].leader == At(m))
    && (j < n ==> Announce(At(m)) in s.queues[After(n, m, j + 1)])
  }

  /** As many tokens as peers until the largest peer leads; then news of it. */
  ghost predicate Progress(uids: seq<int>, s: System, m: nat) {
    && Inv(uids, s) && IsMax(uids, m) && AllTokens(s.queues) <= |uids|
    && (AllTokens(s.queues) < |uids| ==> s.peers[m].isLeader)
    && (s.peers[m].isLeader ==> exists j: nat :: NewsAt(s, m, j))
  }

  lemma OneOutput(queues: seq<seq<Msg>>, o: Output<Msg>)
    requires o.dest < |queues|
    ensures Deliver(queues, [o]) == queues[o.dest := queues[o.dest] + [o.msg]]
  {
    assert [o][1..] == [];
  }

  /** A peer passes on a token or, where the largest identifier has come back, leads. */
  lemma TokensKept(uids: seq<int>, s: System, p: nat, m: nat)
    requires Distinct(uids) && Inv(uids, s) && IsMax(uids, m) && p < |uids| && s.queues[p] != []
    ensures var q, s' := s.queues[p][0], StepOf(s, p);
      && |s'.queues| == |s'.peers| == |uids|
      && AllTokens(s'.queues) == AllTokens(s.queues) - (if q.Elect? && q.i == uids[p] then 1 else 0)
      && (q.Elect? && q.i == uids[p] ==> p == m && s'.peers[m].isLeader && Announce(At(m)) in s'.queues[Next(|uids|, m)])
  {
    var q, popped := s.queues[p], s.queues[p := s.queues[p][1..]];
    var (g, out) := Handle(p, Next(|uids|, p), s.peers[p], q[0]);
    TokensUpdated(s.queues, p, q[1..]);
    if out != [] {
      var o := out[0];
      assert out == [o];
      OneOutput(popped, o);
      TokensUpdated(popped, o.dest, popped[o.dest] + [o.msg]);
      TokensAppended(popped[o.dest], o.msg);
    }
    if q[0].Elect? && q[0].i == uids[p] {
      var d :| Arrived(uids, q[0].i, p, d);
      ReturnedIsMax(uids, p, d);
      OneMax(uids, p, m);
    }
  }

  /** What a step does to the record of the leader: only an announcement touches it. */
  lemma RecordsKept(uids: seq<int>, s: System, p: nat, m: nat)
    requires Distinct(uids) && Inv(uids, s) && IsMax(uids, m) && p < |uids| && s.queues[p] != []
    ensures var s' := StepOf(s, p);
      && |s'.peers| == |uids| == |s'.queues| && (forall r :: 0 <= r < |uids| && r != p ==> s'.peers[r] == s.peers[r])
      && s'.peers[p].leader == (if s.queues[p][0].Announce? then At(m) else s.peers[p].leader)
      && (s.peers[p].isLeader ==> s'.peers[p].isLeader)
      && (forall r :: 0 <= r < |uids| && r != p ==> s.queues[r] <= s'.queues[r])
      && s.queues[p][1..] <= s'.queues[p]
  {
    var q, popped := s.queues[p], s.queues[p := s.queues[p][1..]];
    var (g, out) := Handle(p, Next(|uids|, p), s.peers[p], q[0]);
    if out != [] {
      assert out == [out[0]];
      OneOutput(popped, out[0]);
    }
    match q[0]
    case Announce(add) =>
      assert MsgOk(uids, p, q[0]);
      OneMax(uids, add.p, m);
      if s.peers[p].isLeader { OneMax(uids, p, m); }
    case _ =>
  }

  /** An announcement handled goes on to the next peer, except at the leader. */
  lemma NewsPassedOn(uids: seq<int>, s: System, p: nat, m: nat)
    requires Distinct(uids) && Inv(uids, s) && IsMax(uids, m) && p < |uids| && s.queues[p] != [] && s.queues[p][0].Announce?
    requires p != m
    ensures |StepOf(s, p).queues| == |uids| && Announce(At(m)) in StepOf(s, p).queues[Next(|uids|, p)]
  {
    var popped := s.queues[p := s.queues[p][1..]];
    assert MsgOk(uids, p, s.queues[p][0]);
    OneMax(uids, s.queues[p][0].add.p, m);
    if s.peers[p].isLeader { OneMax(uids, p, m); }
    OneOutput(popped, Output(Next(|uids|, p), Announce(At(m))));
  }

  lemma NewsMoves(uids: seq<int>, s: System, p: nat, m: nat, j: nat) returns (j': nat)
    requires Distinct(uids) && Inv(uids, s) && IsMax(uids, m) && p < |uids| && s.queues[p] != [] && NewsAt(s, m, j)
    ensures NewsAt(StepOf(s, p), m, j')
  {
    var n := |uids|;
    RecordsKept(uids, s, p, m);
    var s' := StepOf(s, p);
    if j < n && p == After(n, m, j + 1) && s.queues[p][0].Announce? {
      j' := j + 1;
      if p != m {
        NewsPassedOn(uids, s, p, m);
        assert j + 1 < n && Next(n, p) == After(n, m, j + 2);
      } else {
        assert j + 1 == n;
      }
    } else {
      j' := j;
      if j < n {
        var w := After(n, m, j + 1);
        StaysQueued(s.queues[w], s'.queues[w], Announce(At(m)), w == p);
      }
    }
  }

  lemma StaysQueued(q: seq<Msg>, q': seq<Msg>, m: Msg, taken: bool)
    requires m in q && (if taken then q[0] != m && q[1..] <= q' else q <= q')
    ensures m in q'
  {
    var i :| 0 <= i < |q| && q[i] == m;
    if taken { assert q[1..][i - 1] == q'[i - 1]; } else { assert q'[i] == m; }
  }

  lemma ProgressStep(uids: seq<int>, s: System, p: nat, m: nat)
    requires Distinct(uids) && Progress(uids, s, m) && p < |uids| && s.queues[p] != []
    ensures Progress(uids, StepOf(s, p), m)
  {
    var q, s' := s.queues[p][0], StepOf(s, p);
    StepKeepsInv(uids, s, p);
    TokensKept(uids, s, p, m);
    RecordsKept(uids, s, p, m);
    if s.peers[m].isLeader {
      var j: nat :| NewsAt(s, m, j);
      var j' := NewsMoves(uids, s, p, m, j);
    } else if s'.peers[m].isLeader {
      assert q.Elect? && q.i == uids[p];
      assert NewsAt(s', m, 0);
    }
  }

  lemma {:induction false} RunProgress(uids: seq<int>, run: seq<System>, k: nat, m: nat)
    requires Distinct(uids) && IsRun(uids, run) && k < |run| && IsMax(uids, m)
    ensures Progress(uids, run[k], m)
  {
    if k == 0 {
      StartOk(uids);
      StartTokens(run[0].queues);
    } else {
      RunProgress(uids, run, k - 1, m);
      var s := run[k - 1];
      assert Step(s, run[k]);
      var p :| 0 <= p < |s.peers| && s.queues[p] != [] && run[k] == StepOf(s, p);
      ProgressStep(uids, s, p, m);
    }
  }

  /** The ring falls silent only when the election is over: in every reachable state in which nobody has a
      message, the peer with the largest identifier leads and every peer has recorded it. */
  lemma QuietRingHasElected(uids: seq<int>, run: seq<System>, k: nat, m: nat, p: nat)
    requires Distinct(uids) && IsRun(uids, run) && k < |run| && IsMax(uids, m) && p < |uids|
    requires forall r :: 0 <= r < |run[k].queues| ==> run[k].queues[r] == []
    ensures |run[k].peers| == |uids| && run[k].peers[m].isLeader && run[k].peers[p].leader == At(m)
  {
    RunProgress(uids, run, k, m);
    NoTokens(run[k].queues);
    var j: nat :| NewsAt(run[k], m, j);
    var i := if p > m then p - m else p + |uids| - m;
    assert After(|uids|, m, i) == p;
  }
}
