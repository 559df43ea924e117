/** Message queues: which queue a message goes to, which worker owns a queue, and the queue map
    that senders append to and workers take from. */
module Queues {
  import opened Options

  datatype Address = Address(host: string, port: int)

  datatype QueueId = DefaultQueue | PeerQueue(a: Address) | TriggerQueue(ta: Address, n: string)

  datatype Msg<+V> = Msg(addr: Address, trigger: string, arg: V)

  type QueueMap<V> = map<QueueId, seq<Msg<V>>>

  /* ---------- Layouts ---------- */

  /** The queues, the groups of queues that share a worker, and the queue of each message target. */
  datatype Layout = Layout(ids: set<QueueId>, groups: seq<seq<QueueId>>, route: map<(Address, string), QueueId>)

  function SingleQSingleW(addrs: seq<Address>, triggers: seq<string>): Layout {
    Layout({DefaultQueue}, [[DefaultQueue]],
           map a, n | a in addrs && n in triggers :: (a, n) := DefaultQueue)
  }

  function PeerQueues(addrs: seq<Address>): seq<QueueId> {
    seq(|addrs|, i requires 0 <= i < |addrs| => PeerQueue(addrs[i]))
  }

  function PeerRoute(addrs: seq<Address>, triggers: seq<string>): map<(Address, string), QueueId> {
    map p | p in (set a, n | a in addrs && n in triggers :: (a, n)) :: PeerQueue(p.0)
  }

  function PeerQSingleW(addrs: seq<Address>, triggers: seq<string>): Layout {
    Layout(set a | a in addrs :: PeerQueue(a), [PeerQueues(addrs)], PeerRoute(addrs, triggers))
  }

  function Singletons(qs: seq<QueueId>): seq<seq<QueueId>> {
    seq(|qs|, i requires 0 <= i < |qs| => [qs[i]])
  }

  function PeerQPeerW(addrs: seq<Address>, triggers: seq<string>): Layout {
    Layout(set a | a in addrs :: PeerQueue(a), Singletons(PeerQueues(addrs)), PeerRoute(addrs, triggers))
  }

  function TriggerQueuesAt(a: Address, triggers: seq<string>): seq<QueueId> {
    seq(|triggers|, i requires 0 <= i < |triggers| => TriggerQueue(a, triggers[i]))
  }

  function TriggerQueues(addrs: seq<Address>, triggers: seq<string>): seq<QueueId>
    decreases |addrs|
  {
    if addrs == [] then [] else TriggerQueuesAt(addrs[0], triggers) + TriggerQueues(addrs[1..], triggers)
  }

  function TriggerQTriggerW(addrs: seq<Address>, triggers: seq<string>): Layout {
    Layout(set a, n | a in addrs && n in triggers :: TriggerQueue(a, n), Singletons(TriggerQueues(addrs, triggers)),
           map p | p in (set a, n | a in addrs && n in triggers :: (a, n)) :: TriggerQueue(p.0, p.1))
  }

  /** The worker found responsible for a queue: the first whose group lists it. */
  function OwnerIn(groups: seq<seq<QueueId>>, q: QueueId): Option<nat>
    decreases |groups|
  {
    if groups == [] then None
    else if q in groups[0] then Some(0)
    else
      match OwnerIn(groups[1..], q)
      case None => None
      case Some(w) => Some(w + 1)
  }

  /** Every routed message has a queue, and every queue is listed by exactly one worker. */
  ghost predicate SoundLayout(l: Layout) {
    && (forall k :: k in l.route ==> l.route[k] in l.ids)
    && (forall q :: q in l.ids ==> exists w :: 0 <= w < |l.groups| && q in l.groups[w])
    && (forall w, q :: 0 <= w < |l.groups| && q in l.groups[w] ==> q in l.ids)
    && (forall w, w', q :: 0 <= w < |l.groups| && 0 <= w' < |l.groups| && q in l.groups[w] && q in l.groups[w'] ==> w == w')
  }

  predicate NoDuplicates<T(==)>(l: seq<T>) {
    forall i, j :: 0 <= i < j < |l| ==> l[i] != l[j]
  }

  lemma {:induction false} OwnerUnique(l: Layout, w: nat, q: QueueId)
    requires SoundLayout(l) && w < |l.groups| && q in l.groups[w]
    ensures OwnerIn(l.groups, q) == Some(w)
  {
    OwnerFirst(l.groups, w, q);
  }

  lemma {:induction false} OwnerFirst(groups: seq<seq<QueueId>>, w: nat, q: QueueId)
    requires w < |groups| && q in groups[w] && forall v :: 0 <= v < w ==> q !in groups[v]
    ensures OwnerIn(groups, q) == Some(w)
    decreases w
  {
    if w > 0 { OwnerFirst(groups[1..], w - 1, q); }
  }

  lemma SingleQSingleWSound(addrs: seq<Address>, triggers: seq<string>)
    ensures SoundLayout(SingleQSingleW(addrs, triggers))
  {
    assert DefaultQueue in SingleQSingleW(addrs, triggers).groups[0];
  }

  lemma PeerQSingleWSound(addrs: seq<Address>, triggers: seq<string>)
    ensures SoundLayout(PeerQSingleW(addrs, triggers))
  {
    var l := PeerQSingleW(addrs, triggers);
    forall q | q in l.ids ensures q in l.groups[0] {
      var a :| a in addrs && q == PeerQueue(a);
      var i :| 0 <= i < |addrs| && addrs[i] == a;
      assert PeerQueues(addrs)[i] == q;
    }
    forall q | q in l.groups[0] ensures q in l.ids {
      var i :| 0 <= i < |addrs| && PeerQueues(addrs)[i] == q;
      assert addrs[i] in addrs;
    }
  }

  lemma SingletonsSound(l: Layout, qs: seq<QueueId>)
    requires l.groups == Singletons(qs) && (forall q :: q in qs ==> q in l.ids) && (forall q :: q in l.ids ==> q in qs)
    requires forall k :: k in l.route ==> l.route[k] in l.ids
    ensures SoundLayout(l) <==> NoDuplicates(qs)
  {
    forall q | q in l.ids ensures exists w :: 0 <= w < |l.groups| && q in l.groups[w] {
      var w :| 0 <= w < |qs| && qs[w] == q;
      assert q in l.groups[w];
    }
    if SoundLayout(l) {
      forall i, j | 0 <= i < j < |qs| ensures qs[i] != qs[j] {
        assert qs[i] in l.groups[i] && qs[j] in l.groups[j];
      }
    }
  }

  /** With a worker per peer, ownership is unique exactly when no address is deployed twice. */
  lemma PeerQPeerWSound(addrs: seq<Address>, triggers: seq<string>)
    ensures SoundLayout(PeerQPeerW(addrs, triggers)) <==> NoDuplicates(addrs)
  {
    var l, qs := PeerQPeerW(addrs, triggers), PeerQueues(addrs);
    forall q | q in qs ensures q in l.ids {
      var i :| 0 <= i < |addrs| && qs[i] == q;
      assert addrs[i] in addrs;
    }
    forall q | q in l.ids ensures q in qs {
      var a :| a in addrs && q == PeerQueue(a);
      var i :| 0 <= i < |addrs| && addrs[i] == a;
      assert qs[i] == q;
    }
    SingletonsSound(l, qs);
    if NoDuplicates(qs) {
      forall i, j | 0 <= i < j < |addrs| ensures addrs[i] != addrs[j] { assert qs[i] != qs[j]; }
    }
  }

  lemma {:induction false} InTriggerQueues(addrs: seq<Address>, triggers: seq<string>, q: QueueId)
    ensures q in TriggerQueues(addrs, triggers) <==> q.TriggerQueue? && q.ta in addrs && q.n in triggers
    decreases |addrs|
  {
    if addrs != [] {
      InTriggerQueues(addrs[1..], triggers, q);
      var here := TriggerQueuesAt(addrs[0], triggers);
      if q in here { var i :| 0 <= i < |here| && here[i] == q; }
      if q.TriggerQueue? && q.ta == addrs[0] && q.n in triggers {
        var i :| 0 <= i < |triggers| && triggers[i] == q.n;
        assert here[i] == q;
      }
    }
  }

  lemma {:induction false} TriggerQueuesDistinct(addrs: seq<Address>, triggers: seq<string>)
    requires NoDuplicates(addrs) && NoDuplicates(triggers)
    ensures NoDuplicates(TriggerQueues(addrs, triggers))
    decreases |addrs|
  {
    if addrs != [] {
      var here, rest := TriggerQueuesAt(addrs[0], triggers), TriggerQueues(addrs[1..], triggers);
      TriggerQueuesDistinct(addrs[1..], triggers);
      assert addrs[0] !in addrs[1..];
      var all := TriggerQueues(addrs, triggers);
      forall i, j | 0 <= i < j < |all| ensures all[i] != all[j] {
        if i < |here| && j >= |here| {
          assert all[j] in rest;
          InTriggerQueues(addrs[1..], triggers, all[j]);
        } else if i >= |here| {
          assert all[i] == rest[i - |here|] && all[j] == rest[j - |here|];
        }
      }
    }
  }

  lemma SharedElement<T>(a: seq<T>, b: seq<T>, i: nat, j: nat)
    requires i < |a| && j < |b| && a[i] == b[j]
    ensures !NoDuplicates(a + b)
  {
    assert (a + b)[i] == (a + b)[|a| + j];
  }

  lemma DuplicatesInPart<T>(a: seq<T>, b: seq<T>)
    requires NoDuplicates(a + b)
    ensures NoDuplicates(a) && NoDuplicates(b)
  {
    forall i, j | 0 <= i < j < |a| ensures a[i] != a[j] { assert (a + b)[i] == a[i] && (a + b)[j] == a[j]; }
    forall i, j | 0 <= i < j < |b| ensures b[i] != b[j] {
      assert (a + b)[|a| + i] == b[i] && (a + b)[|a| + j] == b[j];
    }
  }

  lemma {:induction false} DistinctParts(addrs: seq<Address>, triggers: seq<string>)
    requires NoDuplicates(TriggerQueues(addrs, triggers)) && addrs != [] && triggers != []
    ensures NoDuplicates(addrs) && NoDuplicates(triggers)
    decreases |addrs|
  {
    var here, rest := TriggerQueuesAt(addrs[0], triggers), TriggerQueues(addrs[1..], triggers);
    DuplicatesInPart(here, rest);
    forall i, j | 0 <= i < j < |triggers| ensures triggers[i] != triggers[j] { assert here[i] != here[j]; }
    if |addrs| > 1 {
      DistinctParts(addrs[1..], triggers);
      forall j | 0 < j < |addrs| ensures addrs[j] != addrs[0] {
        InTriggerQueues(addrs[1..], triggers, here[0]);
        if addrs[j] == addrs[0] {
          assert addrs[1..][j - 1] == addrs[0] && triggers[0] in triggers;
          var k :| 0 <= k < |rest| && rest[k] == here[0];
          SharedElement(here, rest, 0, k);
        }
      }
      forall i, j | 0 <= i < j < |addrs| ensures addrs[i] != addrs[j] {
        if i > 0 { assert addrs[1..][i - 1] != addrs[1..][j - 1]; }
      }
    }
  }

  /** With a worker per trigger, ownership is unique exactly when no address and no trigger is listed
      twice, unless there is nothing to own. */
  lemma TriggerQTriggerWSound(addrs: seq<Address>, triggers: seq<string>)
    ensures SoundLayout(TriggerQTriggerW(addrs, triggers)) <==>
      addrs == [] || triggers == [] || (NoDuplicates(addrs) && NoDuplicates(triggers))
  {
    var l, qs := TriggerQTriggerW(addrs, triggers), TriggerQueues(addrs, triggers);
    forall q ensures q in qs <==> q in l.ids { InTriggerQueues(addrs, triggers, q); }
    SingletonsSound(l, qs);
    if addrs == [] || triggers == [] {
      if qs != [] { InTriggerQueues(addrs, triggers, qs[0]); }
    } else if NoDuplicates(qs) {
      DistinctParts(addrs, triggers);
    } else if NoDuplicates(addrs) && NoDuplicates(triggers) {
      TriggerQueuesDistinct(addrs, triggers);
    }
  }

  /** In every layout but the per-trigger one, all triggers of a peer share one queue, so a peer
      sees its messages in the order they were enqueued. */
  lemma PeerSharesOneQueue(addrs: seq<Address>, triggers: seq<string>, a: Address, n: string, n': string)
    requires a in addrs && n in triggers && n' in triggers
    ensures SingleQSingleW(addrs, triggers).route[(a, n)] == SingleQSingleW(addrs, triggers).route[(a, n')]
    ensures PeerQSingleW(addrs, triggers).route[(a, n)] == PeerQSingleW(addrs, triggers).route[(a, n')]
    ensures PeerQPeerW(addrs, triggers).route[(a, n)] == PeerQPeerW(addrs, triggers).route[(a, n')]
    ensures TriggerQTriggerW(addrs, triggers).route[(a, n)] == TriggerQTriggerW(addrs, triggers).route[(a, n')] <==> n == n'
  {}

  /* ---------- Who gets what ---------- */

  /** A message to a deployed peer has a queue, and only those have one. */
  lemma RoutedTargets(addrs: seq<Address>, triggers: seq<string>, k: (Address, string))
    ensures k in SingleQSingleW(addrs, triggers).route <==> k.0 in addrs && k.1 in triggers
    ensures k in PeerQSingleW(addrs, triggers).route <==> k.0 in addrs && k.1 in triggers
    ensures k in PeerQPeerW(addrs, triggers).route <==> k.0 in addrs && k.1 in triggers
    ensures k in TriggerQTriggerW(addrs, triggers).route <==> k.0 in addrs && k.1 in triggers
  {
    assert k == (k.0, k.1);
  }

  /** With a worker per peer, the messages to the i-th peer are those that go to the i-th worker. */
  lemma PeerWorkerGetsOwn(addrs: seq<Address>, triggers: seq<string>, i: nat, k: (Address, string))
    requires NoDuplicates(addrs) && i < |addrs| && k in PeerQPeerW(addrs, triggers).route
    ensures var l := PeerQPeerW(addrs, triggers);
      && |l.groups| == |addrs| && (l.route[k] in l.groups[i] <==> k.0 == addrs[i])
      && (OwnerIn(l.groups, l.route[k]) == Some(i) <==> k.0 == addrs[i])
  {
    var l := PeerQPeerW(addrs, triggers);
    assert l.groups[i] == [PeerQueue(addrs[i])];
    PeerQPeerWSound(addrs, triggers);
    var w :| 0 <= w < |l.groups| && l.route[k] in l.groups[w];
    OwnerUnique(l, w, l.route[k]);
  }

  /** With one worker and a queue per peer, the i-th queue of its list holds the messages to the i-th
      peer and no others. */
  lemma PeerQueueGetsOwn(addrs: seq<Address>, triggers: seq<string>, i: nat, k: (Address, string))
    requires i < |addrs| && k in PeerQSingleW(addrs, triggers).route
    ensures var l := PeerQSingleW(addrs, triggers);
      && |l.groups| == 1 && |l.groups[0]| == |addrs| && (l.route[k] == l.groups[0][i] <==> k.0 == addrs[i])
  {}

  lemma {:induction false} TriggerQueueAt(addrs: seq<Address>, triggers: seq<string>, i: nat, j: nat)
    requires i < |addrs| && j < |triggers|
    ensures |TriggerQueues(addrs, triggers)| == |addrs| * |triggers|
    ensures 0 <= i * |triggers| + j < |TriggerQueues(addrs, triggers)|
    ensures TriggerQueues(addrs, triggers)[i * |triggers| + j] == TriggerQueue(addrs[i], triggers[j])
    decreases |addrs|
  {
    TriggerQueuesLength(addrs, triggers);
    var here, rest := TriggerQueuesAt(addrs[0], triggers), TriggerQueues(addrs[1..], triggers);
    if i == 0 {
      assert TriggerQueues(addrs, triggers)[j] == here[j];
      TriggerQueuesLength(addrs[1..], triggers);
    } else {
      TriggerQueueAt(addrs[1..], triggers, i - 1, j);
      assert i * |triggers| + j == |here| + ((i - 1) * |triggers| + j);
    }
  }

  lemma {:induction false} TriggerQueuesLength(addrs: seq<Address>, triggers: seq<string>)
    ensures |TriggerQueues(addrs, triggers)| == |addrs| * |triggers|
    decreases |addrs|
  {
    if addrs != [] {
      TriggerQueuesLength(addrs[1..], triggers);
      assert |addrs| * |triggers| == |triggers| + (|addrs| - 1) * |triggers|;
    }
  }

  /** With a worker per trigger, the j-th trigger of the i-th peer is served by worker i * n + j, n being
      the number of triggers, and by no other; and that worker serves nothing else. */
  lemma TriggerWorkerGetsOwn(addrs: seq<Address>, triggers: seq<string>, i: nat, j: nat, k: (Address, string))
    requires NoDuplicates(addrs) && NoDuplicates(triggers) && i < |addrs| && j < |triggers|
    requires k in TriggerQTriggerW(addrs, triggers).route
    ensures var l, w := TriggerQTriggerW(addrs, triggers), i * |triggers| + j;
      && 0 <= w < |l.groups| && (l.route[k] in l.groups[w] <==> k == (addrs[i], triggers[j]))
      && (OwnerIn(l.groups, l.route[k]) == Some(w) <==> k == (addrs[i], triggers[j]))
  {
    var l, w := TriggerQTriggerW(addrs, triggers), i * |triggers| + j;
    TriggerQueueAt(addrs, triggers, i, j);
    assert l.groups[w] == [TriggerQueue(addrs[i], triggers[j])];
    assert k == (k.0, k.1);
    TriggerQTriggerWSound(addrs, triggers);
    var v :| 0 <= v < |l.groups| && l.route[k] in l.groups[v];
    OwnerUnique(l, v, l.route[k]);
  }

  /* ---------- Taking a message ---------- */

  /** The head of the first nonempty queue of the list, with the map after its removal. */
  function MkDequeue<V>(qs: seq<QueueId>, m: QueueMap<V>): (QueueMap<V>, Option<(QueueId, Msg<V>)>)
    requires forall q :: q in qs ==> q in m
    decreases |qs|
  {
    if qs == [] then (m, None)
    else if m[qs[0]] == [] then MkDequeue(qs[1..], m)
    else (m[qs[0] := m[qs[0]][1..]], Some((qs[0], m[qs[0]][0])))
  }

  /** The first queue of the list that holds anything. */
  ghost predicate FirstFull<V>(qs: seq<QueueId>, m: QueueMap<V>, q: QueueId) {
    exists i :: 0 <= i < |qs| && qs[i] == q && q in m && m[q] != [] && forall j :: 0 <= j < i ==> qs[j] in m && m[qs[j]] == []
  }

  /** Nothing is taken exactly when all the queues are empty; otherwise the head of the first that is
      not. */
  lemma {:induction false} MkDequeueSpec<V>(qs: seq<QueueId>, m: QueueMap<V>)
    requires forall q :: q in qs ==> q in m
    ensures MkDequeue(qs, m).1.None? <==> forall q :: q in qs ==> m[q] == []
    ensures MkDequeue(qs, m).1.None? ==> MkDequeue(qs, m).0 == m
    ensures MkDequeue(qs, m).1.Some? ==>
      var (q, x) := MkDequeue(qs, m).1.value;
      q in qs && FirstFull(qs, m, q) && m[q] != [] && x == m[q][0] && MkDequeue(qs, m).0 == m[q := m[q][1..]]
    decreases |qs|
  {
    if qs != [] {
      assert qs[0] in qs;
      if m[qs[0]] == [] {
        MkDequeueSpec(qs[1..], m);
        assert forall q :: q in qs <==> q == qs[0] || q in qs[1..];
        if MkDequeue(qs, m).1.Some? {
          var q := MkDequeue(qs, m).1.value.0;
          var i :| 0 <= i < |qs[1..]| && qs[1..][i] == q && forall j :: 0 <= j < i ==> qs[1..][j] in m && m[qs[1..][j]] == [];
          assert qs[i + 1] == q && forall j :: 0 < j < i + 1 ==> qs[j] == qs[1..][j - 1];
        }
      }
    }
  }

  /** The shared queue state of the engine. The worker map is missing until the workers are
      configured. */
  class QueueConfiguration<V> {
    var queues: QueueMap<V>
    var workerQueues: Option<seq<seq<QueueId>>>
    const layout: Layout

    ghost predicate Valid()
      reads this
    {
      && SoundLayout(layout) && queues.Keys == layout.ids
      && (workerQueues.Some? ==> workerQueues.value == layout.groups)
    }

    constructor (l: Layout)
      requires SoundLayout(l)
      ensures Valid() && layout == l && workerQueues.None?
      ensures forall q :: q in queues ==> queues[q] == []
    {
      layout, workerQueues := l, None;
      queues := map q | q in l.ids :: [];
    }

    method ConfigWorkers()
      requires Valid()
      modifies this`workerQueues
      ensures Valid() && workerQueues == Some(layout.groups)
    {
      workerQueues := Some(layout.groups);
    }

    /** The append of enqueue: one message goes to the end of its queue, all else stays. The worker
        to notify is returned, unless the workers are not configured yet. */
    method Append(addr: Address, trigger: string, arg: V) returns (owner: Option<nat>)
      requires Valid() && (addr, trigger) in layout.route
      modifies this`queues
      ensures Valid()
      ensures var q := layout.route[(addr, trigger)];
        && queues == old(queues)[q := old(queues)[q] + [Msg(addr, trigger, arg)]]
        && owner == (if workerQueues.Some? then OwnerIn(layout.groups, q) else None)
        && (workerQueues.Some? ==> owner.Some? && owner.value < |layout.groups| && q in layout.groups[owner.value])
    {
      var q := layout.route[(addr, trigger)];
      queues := queues[q := queues[q] + [Msg(addr, trigger, arg)]];
      owner := if workerQueues.Some? then OwnerIn(workerQueues.value, q) else None;
      ghost var w :| 0 <= w < |layout.groups| && q in layout.groups[w];
      OwnerUnique(layout, w, q);
    }

    /** Worker w takes the head of the first of its nonempty queues. */
    method Dequeue(w: nat) returns (r: Option<(QueueId, Msg<V>)>)
      requires Valid() && workerQueues.Some? && w < |layout.groups|
      modifies this`queues
      ensures Valid()
      ensures r.None? <==> forall q :: q in layout.groups[w] ==> old(queues)[q] == []
      ensures r.None? ==> queues == old(queues)
      ensures r.Some? ==>
        var (q, x) := r.value;
        && q in layout.groups[w] && FirstFull(layout.groups[w], old(queues), q) && old(queues)[q] == [x] + queues[q]
        && queues == old(queues)[q := old(queues)[q][1..]]
    {
      MkDequeueSpec(layout.groups[w], queues);
      var res := MkDequeue(layout.groups[w], queues);
      queues, r := res.0, res.1;
    }
  }

  method OwnerOf(l: Layout, q: QueueId) returns (w: nat)
    requires SoundLayout(l) && q in l.ids
    ensures w < |l.groups| && q in l.groups[w] && OwnerIn(l.groups, q) == Some(w)
  {
    w :| 0 <= w < |l.groups| && q in l.groups[w];
    OwnerUnique(l, w, q);
  }

  /** A message enqueued before the workers are configured names nobody to wake; one enqueued after
      names its owner. Either way it is in its queue. */
  method EnqueueAndConfigure<V>(conf: QueueConfiguration<V>, addr: Address, trigger: string, arg: V, early: bool)
    returns (owner: Option<nat>)
    requires conf.Valid() && conf.workerQueues.None? && (addr, trigger) in conf.layout.route
    modifies conf
    ensures conf.Valid() && conf.workerQueues.Some?
    ensures var q := conf.layout.route[(addr, trigger)];
      && conf.queues == old(conf.queues)[q := old(conf.queues)[q] + [Msg(addr, trigger, arg)]]
      && owner == if early then None else OwnerIn(conf.layout.groups, q)
  {
    if early {
      owner := conf.Append(addr, trigger, arg);
      conf.ConfigWorkers();
    } else {
      conf.ConfigWorkers();
      owner := conf.Append(addr, trigger, arg);
    }
  }

  /** A worker that takes from queues of which only q holds something takes that. */
  lemma TakesOnly<V>(qs: seq<QueueId>, queues: QueueMap<V>, rest: QueueMap<V>, q: QueueId, m: Msg<V>, r: Option<(QueueId, Msg<V>)>)
    requires q in qs && q in queues && queues[q] == [m] && (forall o :: o in queues && o != q ==> queues[o] == [])
    requires forall o :: o in qs ==> o in queues && o in rest
    requires r.None? ==> forall o :: o in qs ==> queues[o] == []
    requires r.Some? ==> r.value.0 in qs && queues[r.value.0] == [r.value.1] + rest[r.value.0]
    ensures r == Some((q, m))
  {
    if r.Some? { assert queues[r.value.0] != [] && queues[r.value.0][0] == r.value.1; }
  }

  method TakeOnly<V>(conf: QueueConfiguration<V>, w: nat, ghost q: QueueId, ghost m: Msg<V>) returns (r: Option<(QueueId, Msg<V>)>)
    requires conf.Valid() && conf.workerQueues.Some? && w < |conf.layout.groups| && q in conf.layout.groups[w]
    requires q in conf.queues && conf.queues[q] == [m] && forall o :: o in conf.queues && o != q ==> conf.queues[o] == []
    modifies conf
    ensures r == Some((q, m))
  {
    ghost var full := conf.queues;
    r := conf.Dequeue(w);
    TakesOnly(conf.layout.groups[w], full, conf.queues, q, m, r);
  }

  /** Whether it is enqueued before the workers are configured or after, a message reaches the one
      worker that owns its queue, unchanged. */
  method FirstMessage<V>(l: Layout, addr: Address, trigger: string, arg: V, early: bool)
    returns (w: nat, r: Option<(QueueId, Msg<V>)>)
    requires SoundLayout(l) && (addr, trigger) in l.route
    ensures w < |l.groups| && l.route[(addr, trigger)] in l.groups[w]
    ensures r == Some((l.route[(addr, trigger)], Msg(addr, trigger, arg)))
  {
    var q := l.route[(addr, trigger)];
    w := OwnerOf(l, q);
    var conf := new QueueConfiguration(l);
    var owner := EnqueueAndConfigure(conf, addr, trigger, arg, early);
    r := TakeOnly(conf, w, q, Msg(addr, trigger, arg));
  }
}
