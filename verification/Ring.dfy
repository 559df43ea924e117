/** Positions on a ring of n peers. */
module Ring {

  /** A peer's address, or the placeholder stored before the election. */
  datatype Address = Nobody | At(p: nat)

  function Next(n: nat, p: nat): (q: nat)
    requires p < n
    ensures q < n
  {
    if p + 1 == n then 0 else p + 1
  }

  /** The position d hops before p. */
  function Back(n: nat, p: nat, d: nat): (q: nat)
    requires p < n && d <= n
    ensures q < n
  {
    if d <= p then p - d else p + n - d
  }

  predicate Distinct(uids: seq<int>) {
    forall i, j :: 0 <= i < j < |uids| ==> uids[i] != uids[j]
  }

  lemma SameUid(uids: seq<int>, i: nat, j: nat)
    requires Distinct(uids) && i < |uids| && j < |uids| && uids[i] == uids[j]
    ensures i == j
  {}

  ghost predicate IsMax(uids: seq<int>, m: nat) {
    m < |uids| && forall q :: 0 <= q < |uids| ==> uids[q] <= uids[m]
  }

  /* ---------- Messages between peers ---------- */

  /** A message and the position of the peer it is sent to. */
  datatype Output<M> = Output(dest: nat, msg: M)

  /** Each message goes to the end of its receiver's queue. */
  function Deliver<M>(queues: seq<seq<M>>, out: seq<Output<M>>): seq<seq<M>>
    decreases |out|
  {
    if out == [] then queues
    else if out[0].dest < |queues| then
      Deliver(queues[out[0].dest := queues[out[0].dest] + [out[0].msg]], out[1..])
    else Deliver(queues, out[1..])
  }
}
