/** Reading a file as a message source: the buffered endpoint, and the generated controller trigger
    that passes one value on to every bound trigger and then sends itself another message. */
module FileSource {
  import opened Options

  /* ---------- The endpoint ---------- */

  /** A file opened for reading with a one-element buffer; a line that does not decode is None. */
  datatype Endpoint<V> = Endpoint(buffer: Option<V>, lines: seq<Option<V>>)

  /** The next line of the file goes into the empty buffer; at the end of the file, and for a line that
      does not decode, the buffer stays empty. */
  function Refill<V>(ep: Endpoint<V>): Endpoint<V> {
    if ep.lines == [] then Endpoint(None, []) else Endpoint(ep.lines[0], ep.lines[1..])
  }

  /** Opening primes the buffer. */
  function Opened<V>(lines: seq<Option<V>>): Endpoint<V> { Refill(Endpoint(None, lines)) }

  /** The values up to the first line that does not decode. */
  function Readable<V>(lines: seq<Option<V>>): seq<V>
    decreases |lines|
  {
    if lines == [] || lines[0].None? then [] else [lines[0].value] + Readable(lines[1..])
  }

  /** The values still to come as long as nobody reads from an empty buffer. */
  function ToCome<V>(ep: Endpoint<V>): seq<V> {
    if ep.buffer.None? then [] else [ep.buffer.value] + Readable(ep.lines)
  }

  lemma RefillToCome<V>(ep: Endpoint<V>)
    ensures ToCome(Refill(ep)) == Readable(ep.lines)
  {}

  /** Every line counts exactly when every line decodes. */
  lemma {:induction false} ReadableAll<V>(lines: seq<Option<V>>)
    ensures |Readable(lines)| == |lines| <==> forall i :: 0 <= i < |lines| ==> lines[i].Some?
    ensures |Readable(lines)| <= |lines|
    ensures forall i :: 0 <= i < |Readable(lines)| ==> lines[i] == Some(Readable(lines)[i])
    decreases |lines|
  {
    if lines != [] && lines[0].Some? {
      ReadableAll(lines[1..]);
      if |Readable(lines[1..])| == |lines| - 1 {
        assert forall i :: 1 <= i < |lines| ==> lines[i] == lines[1..][i - 1];
      }
      forall i | 0 <= i < |lines| - 1 ensures lines[1..][i] == lines[i + 1] {}
    }
  }

  class FileEndpoint<V(==)> {
    var buffer: Option<V>
    var lines: seq<Option<V>>

    ghost function View(): Endpoint<V>
      reads this
    {
      Endpoint(buffer, lines)
    }

    constructor (file: seq<Option<V>>)
      ensures View() == Opened(file) && ToCome(View()) == Readable(file)
    {
      if file == [] {
        buffer, lines := None, [];
      } else {
        buffer, lines := file[0], file[1..];
      }
    }

    method HasRead() returns (r: bool)
      ensures r <==> ToCome(View()) != []
    {
      r := buffer.Some?;
    }

    /** Takes the buffered value and reads the next line into the buffer. */
    method DoRead() returns (r: Option<V>)
      modifies this
      ensures r == old(buffer) && View() == Refill(old(View()))
      ensures old(ToCome(View())) != [] ==> r == Some(old(ToCome(View()))[0]) && ToCome(View()) == old(ToCome(View()))[1..]
    {
      RefillToCome(View());
      r := buffer;
      if lines == [] {
        buffer := None;
      } else {
        buffer, lines := lines[0], lines[1..];
      }
    }
  }

  /* ---------- The program around it ---------- */

  /** The controller's own message, or a value for a trigger; mine marks values from this source. */
  datatype Msg<V> = Control | Data(to: string, v: V, mine: bool)

  /** The bound triggers, in the order of their bindings, and which queue each message goes to. */
  datatype Config = Config(dests: seq<string>, controlQueue: nat, route: map<string, nat>, queues: nat)

  predicate ValidConfig(c: Config) {
    && c.controlQueue < c.queues
    && (forall d :: d in c.route ==> c.route[d] < c.queues)
    && forall i :: 0 <= i < |c.dests| ==> c.dests[i] in c.route
  }

  predicate MsgOk<V>(c: Config, m: Msg<V>) { m.Data? ==> m.to in c.route }

  function Target<V>(c: Config, m: Msg<V>): nat
    requires MsgOk(c, m)
  {
    if m.Control? then c.controlQueue else c.route[m.to]
  }

  datatype State<V> = State(
    ep: Endpoint<V>,
    queues: seq<seq<Msg<V>>>,
    read: seq<V>,            // history: values read from the file
    received: seq<Msg<V>>,   // history: values processed by their triggers
    controls: nat)           // history: controller messages processed

  function ToAll<V>(dests: seq<string>, v: V): seq<Msg<V>> {
    seq(|dests|, i requires 0 <= i < |dests| => Data(dests[i], v, true))
  }

  function Enqueue<V>(c: Config, queues: seq<seq<Msg<V>>>, m: Msg<V>): seq<seq<Msg<V>>>
    requires ValidConfig(c) && |queues| == c.queues && MsgOk(c, m)
  {
    queues[Target(c, m) := queues[Target(c, m)] + [m]]
  }

  function EnqueueAll<V>(c: Config, queues: seq<seq<Msg<V>>>, ms: seq<Msg<V>>): (r: seq<seq<Msg<V>>>)
    requires ValidConfig(c) && |queues| == c.queues && forall m :: m in ms ==> MsgOk(c, m)
    ensures |r| == c.queues
    decreases |ms|
  {
    if ms == [] then queues else EnqueueAll(c, Enqueue(c, queues, ms[0]), ms[1..])
  }

  /** Processing the head of a queue, where an ordinary trigger may send further messages, or a message
      from anywhere else arriving. */
  datatype Action<V> = Process(q: nat, more: seq<Msg<V>>) | Arrive(m: Msg<V>)

  /** Nobody else sends to the controller or in the name of the source. */
  predicate Foreign<V>(c: Config, m: Msg<V>) { m.Data? && m.to in c.route && !m.mine }

  ghost predicate Enabled<V>(c: Config, s: State<V>, a: Action<V>) {
    && |s.queues| == c.queues
    && match a
       case Process(q, more) =>
         q < c.queues && s.queues[q] != [] && (s.queues[q][0].Control? ==> more == [])
         && forall m :: m in more ==> Foreign(c, m)
       case Arrive(m) => Foreign(c, m)
  }

  /** The controller: passes a value on and goes round again, or stops. */
  function RunControl<V>(c: Config, s: State<V>): State<V>
    requires ValidConfig(c) && |s.queues| == c.queues
  {
    if s.ep.buffer.None? then s.(controls := s.controls + 1)
    else
      s.(ep := Refill(s.ep), read := s.read + [s.ep.buffer.value], controls := s.controls + 1,
         queues := EnqueueAll(c, s.queues, ToAll(c.dests, s.ep.buffer.value) + [Control]))
  }

  function Do<V>(c: Config, s: State<V>, a: Action<V>): State<V>
    requires ValidConfig(c) && Enabled(c, s, a)
  {
    match a
    case Arrive(m) => s.(queues := Enqueue(c, s.queues, m))
    case Process(q, more) =>
      var m := s.queues[q][0];
      var taken := s.(queues := s.queues[q := s.queues[q][1..]]);
      if m.Control? then RunControl(c, taken)
      else taken.(received := s.received + [m], queues := EnqueueAll(c, taken.queues, more))
  }

  /** The file has just been opened and the first controller message sent; other messages may be
      queued already. */
  ghost predicate IsInitial<V>(c: Config, lines: seq<Option<V>>, s: State<V>) {
    && ValidConfig(c) && |s.queues| == c.queues && s.ep == Opened(lines)
    && s.read == [] && s.received == [] && s.controls == 0
    && s.queues[c.controlQueue] != []
    && (forall q, i :: 0 <= q < c.queues && 0 <= i < |s.queues[q]| ==>
          if q == c.controlQueue && i == |s.queues[q]| - 1 then s.queues[q][i].Control?
          else Foreign(c, s.queues[q][i]) && c.route[s.queues[q][i].to] == q)
  }

  ghost predicate IsRun<V>(c: Config, lines: seq<Option<V>>, run: seq<State<V>>, acts: seq<Action<V>>) {
    && |run| == |acts| + 1 && IsInitial(c, lines, run[0])
    && forall k :: 0 <= k < |acts| ==> Enabled(c, run[k], acts[k]) && run[k + 1] == Do(c, run[k], acts[k])
  }

  /* ---------- What each trigger gets ---------- */

  /** The source's values among the messages for one trigger. */
  function ValuesFor<V>(ms: seq<Msg<V>>, d: string): seq<V>
    decreases |ms|
  {
    if ms == [] then []
    else (if ms[0].Data? && ms[0].to == d && ms[0].mine then [ms[0].v] else []) + ValuesFor(ms[1..], d)
  }

  /** What the controller sends for a list of values. */
  function SentFor<V>(dests: seq<string>, vs: seq<V>): seq<Msg<V>>
    decreases |vs|
  {
    if vs == [] then [] else SentFor(dests, vs[..|vs| - 1]) + ToAll(dests, vs[|vs| - 1])
  }

  function Controls<V>(ms: seq<Msg<V>>): nat
    decreases |ms|
  {
    if ms == [] then 0 else (if ms[0].Control? then 1 else 0) + Controls(ms[1..])
  }

  lemma {:induction false} ValuesForConcat<V>(a: seq<Msg<V>>, b: seq<Msg<V>>, d: string)
    ensures ValuesFor(a + b, d) == ValuesFor(a, d) + ValuesFor(b, d)
    decreases |a|
  {
    if a == [] {
      assert a + b == b;
    } else {
      assert (a + b)[1..] == a[1..] + b;
      ValuesForConcat(a[1..], b, d);
    }
  }

  lemma {:induction false} ControlsConcat<V>(a: seq<Msg<V>>, b: seq<Msg<V>>)
    ensures Controls(a + b) == Controls(a) + Controls(b)
    decreases |a|
  {
    if a == [] {
      assert a + b == b;
    } else {
      assert (a + b)[1..] == a[1..] + b;
      ControlsConcat(a[1..], b);
    }
  }

  /** Every message is in the queue it is routed to. */
  predicate Routed<V>(c: Config, queues: seq<seq<Msg<V>>>) {
    && |queues| == c.queues
    && forall q, i :: 0 <= q < c.queues && 0 <= i < |queues[q]| ==> MsgOk(c, queues[q][i]) && Target(c, queues[q][i]) == q
  }

  lemma EnqueueAdds<V>(c: Config, queues: seq<seq<Msg<V>>>, m: Msg<V>, d: string)
    requires ValidConfig(c) && Routed(c, queues) && MsgOk(c, m) && d in c.route
    ensures var queues' := Enqueue(c, queues, m);
      && Routed(c, queues')
      && ValuesFor(queues'[c.route[d]], d) == ValuesFor(queues[c.route[d]], d) + ValuesFor([m], d)
      && Controls(queues'[c.controlQueue]) == Controls(queues[c.controlQueue]) + Controls([m])
  {
    ValuesForConcat(queues[c.route[d]], [m], d);
    ControlsConcat(queues[c.controlQueue], [m]);
  }

  lemma {:induction false} EnqueueAllAdds<V>(c: Config, queues: seq<seq<Msg<V>>>, ms: seq<Msg<V>>, d: string)
    requires ValidConfig(c) && Routed(c, queues) && (forall m :: m in ms ==> MsgOk(c, m)) && d in c.route
    ensures var queues' := EnqueueAll(c, queues, ms);
      && Routed(c, queues')
      && ValuesFor(queues'[c.route[d]], d) == ValuesFor(queues[c.route[d]], d) + ValuesFor(ms, d)
      && Controls(queues'[c.controlQueue]) == Controls(queues[c.controlQueue]) + Controls(ms)
    decreases |ms|
  {
    if ms != [] {
      EnqueueAdds(c, queues, ms[0], d);
      EnqueueAllAdds(c, Enqueue(c, queues, ms[0]), ms[1..], d);
      ValuesForConcat([ms[0]], ms[1..], d);
      ControlsConcat([ms[0]], ms[1..]);
      assert [ms[0]] + ms[1..] == ms;
    }
  }

  lemma TakeDrops<V>(c: Config, queues: seq<seq<Msg<V>>>, q: nat, d: string)
    requires ValidConfig(c) && Routed(c, queues) && q < c.queues && queues[q] != [] && d in c.route
    ensures var queues', m := queues[q := queues[q][1..]], queues[q][0];
      && Routed(c, queues')
      && ValuesFor(queues[c.route[d]], d) == ValuesFor([m], d) + ValuesFor(queues'[c.route[d]], d)
      && Controls(queues[c.controlQueue]) == Controls([m]) + Controls(queues'[c.controlQueue])
  {
    var m := queues[q][0];
    assert queues[q] == [m] + queues[q][1..];
    ValuesForConcat([m], queues[q][1..], d);
    ControlsConcat([m], queues[q][1..]);
    assert MsgOk(c, m) && Target(c, m) == q;
  }

  lemma {:induction false} NoControls<V>(ms: seq<Msg<V>>)
    requires forall m :: m in ms ==> m.Data?
    ensures Controls(ms) == 0
    decreases |ms|
  {
    if ms != [] {
      assert ms[0] in ms;
      NoControls(ms[1..]);
    }
  }

  lemma {:induction false} NotMine<V>(ms: seq<Msg<V>>, d: string)
    requires forall m :: m in ms ==> m.Control? || !m.mine
    ensures ValuesFor(ms, d) == []
    decreases |ms|
  {
    if ms != [] {
      assert ms[0] in ms;
      NotMine(ms[1..], d);
    }
  }

  /* ---------- The invariant ---------- */

  /** The accounts of one destination: what it has processed and what waits for it, how far the file
      has been read, and how many controller messages there are. */
  ghost predicate Books<V>(c: Config, lines: seq<Option<V>>, s: State<V>, d: string, waiting: seq<V>, pending: nat) {
    && s.read + ToCome(s.ep) == Readable(lines)
    && ValuesFor(s.received, d) + waiting == ValuesFor(SentFor(c.dests, s.read), d)
    && pending <= 1 && s.controls + pending == |s.read| + 1
    && (pending == 0 ==> ToCome(s.ep) == [])
  }

  ghost predicate Inv<V>(c: Config, lines: seq<Option<V>>, s: State<V>, d: string) {
    && ValidConfig(c) && Routed(c, s.queues) && d in c.route
    && Books(c, lines, s, d, ValuesFor(s.queues[c.route[d]], d), Controls(s.queues[c.controlQueue]))
  }

  lemma InitialInv<V>(c: Config, lines: seq<Option<V>>, s: State<V>, d: string)
    requires IsInitial(c, lines, s) && d in c.route
    ensures Inv(c, lines, s, d)
  {
    var cq := s.queues[c.controlQueue];
    var before := cq[..|cq| - 1];
    assert cq == before + [Control];
    NoControls(before);
    ControlsConcat(before, [Control]);
    NotMine(s.queues[c.route[d]], d);
    RefillToCome(Endpoint(None, lines));
  }

  /** What passing a value on adds to the queues. */
  lemma PassesOn<V>(c: Config, queues: seq<seq<Msg<V>>>, v: V, d: string)
    requires ValidConfig(c) && Routed(c, queues) && d in c.route
    ensures var queues' := EnqueueAll(c, queues, ToAll(c.dests, v) + [Control]);
      && Routed(c, queues')
      && ValuesFor(queues'[c.route[d]], d) == ValuesFor(queues[c.route[d]], d) + ValuesFor(ToAll(c.dests, v), d)
      && Controls(queues'[c.controlQueue]) == Controls(queues[c.controlQueue]) + 1
  {
    var all := ToAll(c.dests, v);
    EnqueueAllAdds(c, queues, all + [Control], d);
    NoControls(all);
    ControlsConcat(all, [Control]);
    ValuesForConcat(all, [Control], d);
    assert ValuesFor<V>([Control], d) == [];
  }

  lemma SentForSnoc<V>(dests: seq<string>, vs: seq<V>, v: V, d: string)
    ensures ValuesFor(SentFor(dests, vs + [v]), d) == ValuesFor(SentFor(dests, vs), d) + ValuesFor(ToAll(dests, v), d)
  {
    assert (vs + [v])[..|vs|] == vs;
    ValuesForConcat(SentFor(dests, vs), ToAll(dests, v), d);
  }

  lemma BooksControl<V>(c: Config, lines: seq<Option<V>>, s: State<V>, d: string, waiting: seq<V>, s': State<V>)
    requires Books(c, lines, s, d, waiting, 1) && s'.received == s.received && s'.controls == s.controls + 1
    requires if s.ep.buffer.None? then s'.ep == s.ep && s'.read == s.read
             else s'.ep == Refill(s.ep) && s'.read == s.read + [s.ep.buffer.value]
    ensures if s.ep.buffer.None? then Books(c, lines, s', d, waiting, 0)
            else Books(c, lines, s', d, waiting + ValuesFor(ToAll(c.dests, s.ep.buffer.value), d), 1)
  {
    if s.ep.buffer.Some? {
      var v := s.ep.buffer.value;
      SentForSnoc(c.dests, s.read, v, d);
      RefillToCome(s.ep);
      assert s.read + [v] + Readable(s.ep.lines) == s.read + ToCome(s.ep);
    }
  }

  lemma ControlInv<V>(c: Config, lines: seq<Option<V>>, s: State<V>, d: string, q: nat)
    requires Inv(c, lines, s, d) && q < c.queues && s.queues[q] != [] && s.queues[q][0].Control?
    ensures Inv(c, lines, Do(c, s, Process(q, [])), d)
  {
    var queues, s' := s.queues[q := s.queues[q][1..]], Do(c, s, Process(q, []));
    TakeDrops(c, s.queues, q, d);
    BooksControl(c, lines, s, d, ValuesFor(queues[c.route[d]], d), s');
    if s.ep.buffer.Some? { PassesOn(c, queues, s.ep.buffer.value, d); }
  }

  lemma ForeignOk<V>(c: Config, more: seq<Msg<V>>)
    requires forall m :: m in more ==> Foreign(c, m)
    ensures forall m :: m in more ==> MsgOk(c, m) && m.Data? && !m.mine
  {}

  /** Messages of others change nothing that matters here. */
  lemma ForeignAdds<V>(c: Config, queues: seq<seq<Msg<V>>>, more: seq<Msg<V>>, d: string)
    requires ValidConfig(c) && Routed(c, queues) && d in c.route
    requires forall m :: m in more ==> MsgOk(c, m) && m.Data? && !m.mine
    ensures var queues' := EnqueueAll(c, queues, more);
      && Routed(c, queues')
      && ValuesFor(queues'[c.route[d]], d) == ValuesFor(queues[c.route[d]], d)
      && Controls(queues'[c.controlQueue]) == Controls(queues[c.controlQueue])
  {
    EnqueueAllAdds(c, queues, more, d);
    NoControls(more);
    NotMine(more, d);
  }

  lemma DataInv<V>(c: Config, lines: seq<Option<V>>, s: State<V>, d: string, q: nat, more: seq<Msg<V>>)
    requires Inv(c, lines, s, d) && Enabled(c, s, Process(q, more)) && s.queues[q][0].Data?
    ensures Inv(c, lines, Do(c, s, Process(q, more)), d)
  {
    var m, queues := s.queues[q][0], s.queues[q := s.queues[q][1..]];
    TakeDrops(c, s.queues, q, d);
    ForeignOk(c, more);
    ForeignAdds(c, queues, more, d);
    BooksData(c, lines, s, d, m, ValuesFor(queues[c.route[d]], d), Controls(queues[c.controlQueue]), Do(c, s, Process(q, more)));
  }

  lemma BooksData<V>(c: Config, lines: seq<Option<V>>, s: State<V>, d: string, m: Msg<V>, waiting: seq<V>, pending: nat, s': State<V>)
    requires m.Data? && Books(c, lines, s, d, ValuesFor([m], d) + waiting, Controls([m]) + pending)
    requires s'.received == s.received + [m] && s'.read == s.read && s'.ep == s.ep && s'.controls == s.controls
    ensures Books(c, lines, s', d, waiting, pending)
  {
    NoControls([m]);
    ValuesForConcat(s.received, [m], d);
    assert ValuesFor(s.received, d) + (ValuesFor([m], d) + waiting) == ValuesFor(s.received, d) + ValuesFor([m], d) + waiting;
  }

  lemma StepInv<V>(c: Config, lines: seq<Option<V>>, s: State<V>, a: Action<V>, d: string)
    requires Inv(c, lines, s, d) && Enabled(c, s, a)
    ensures Inv(c, lines, Do(c, s, a), d)
  {
    match a
    case Arrive(m) => EnqueueAdds(c, s.queues, m, d);
    case Process(q, more) =>
      if s.queues[q][0].Control? { ControlInv(c, lines, s, d, q); } else { DataInv(c, lines, s, d, q, more); }
  }

  lemma {:induction false} RunInv<V>(c: Config, lines: seq<Option<V>>, run: seq<State<V>>, acts: seq<Action<V>>, k: nat, d: string)
    requires IsRun(c, lines, run, acts) && k < |run| && d in c.route
    ensures Inv(c, lines, run[k], d)
  {
    if k == 0 {
      InitialInv(c, lines, run[0], d);
    } else {
      RunInv(c, lines, run, acts, k - 1, d);
      StepInv(c, lines, run[k - 1], acts[k - 1], d);
    }
  }

  /* ---------- Delivery ---------- */

  lemma {:induction false} ToAllOnce<V>(dests: seq<string>, v: V, d: string, i: nat)
    requires i < |dests| && dests[i] == d && forall j :: 0 <= j < |dests| && j != i ==> dests[j] != d
    ensures ValuesFor(ToAll(dests, v), d) == [v]
    decreases |dests|
  {
    assert ToAll(dests, v)[1..] == ToAll(dests[1..], v);
    if i == 0 {
      ToAllNone(dests[1..], v, d);
    } else {
      forall j | 0 <= j < |dests| - 1 && j != i - 1 ensures dests[1..][j] != d { assert dests[1..][j] == dests[j + 1]; }
      ToAllOnce(dests[1..], v, d, i - 1);
    }
  }

  lemma {:induction false} ToAllNone<V>(dests: seq<string>, v: V, d: string)
    requires forall j :: 0 <= j < |dests| ==> dests[j] != d
    ensures ValuesFor(ToAll(dests, v), d) == []
    decreases |dests|
  {
    if dests != [] {
      assert ToAll(dests, v)[1..] == ToAll(dests[1..], v);
      ToAllNone(dests[1..], v, d);
    }
  }

  /** A trigger bound once is sent each value once, in order. */
  lemma {:induction false} SentOnce<V>(dests: seq<string>, vs: seq<V>, d: string, i: nat)
    requires i < |dests| && dests[i] == d && forall j :: 0 <= j < |dests| && j != i ==> dests[j] != d
    ensures ValuesFor(SentFor(dests, vs), d) == vs
    decreases |vs|
  {
    if vs != [] {
      var init, last := vs[..|vs| - 1], vs[|vs| - 1];
      SentOnce(dests, init, d, i);
      ToAllOnce(dests, last, d, i);
      ValuesForConcat(SentFor(dests, init), ToAll(dests, last), d);
      assert init + [last] == vs;
    }
  }

  /** At any time a trigger bound once has processed a prefix of the file's values, in file order and
      each once; the controller has run at most once per value and once more. */
  lemma DeliveredInOrder<V>(c: Config, lines: seq<Option<V>>, run: seq<State<V>>, acts: seq<Action<V>>, k: nat, i: nat)
    requires IsRun(c, lines, run, acts) && k < |run| && i < |c.dests|
    requires forall j :: 0 <= j < |c.dests| && j != i ==> c.dests[j] != c.dests[i]
    ensures ValuesFor(run[k].received, c.dests[i]) <= Readable(lines)
    ensures run[k].controls <= |Readable(lines)| + 1
  {
    var d := c.dests[i];
    RunInv(c, lines, run, acts, k, d);
    SentOnce(c.dests, run[k].read, d, i);
    assert ValuesFor(run[k].received, d) <= run[k].read <= Readable(lines);
  }

  /** When nothing is queued any more, the trigger has processed every value up to the first line that
      does not decode, so the whole file when all lines decode, and the controller has run once per
      value and once more. */
  lemma DeliveredWhenQuiet<V>(c: Config, lines: seq<Option<V>>, run: seq<State<V>>, acts: seq<Action<V>>, k: nat, i: nat)
    requires IsRun(c, lines, run, acts) && k < |run| && i < |c.dests|
    requires forall j :: 0 <= j < |c.dests| && j != i ==> c.dests[j] != c.dests[i]
    requires forall q :: 0 <= q < |run[k].queues| ==> run[k].queues[q] == []
    ensures ValuesFor(run[k].received, c.dests[i]) == Readable(lines)
    ensures run[k].controls == |Readable(lines)| + 1
  {
    var d := c.dests[i];
    RunInv(c, lines, run, acts, k, d);
    SentOnce(c.dests, run[k].read, d, i);
  }

  /** Until every value has been read there is exactly one controller message queued, so the source
      neither stalls nor multiplies; afterwards there is none. */
  lemma SourceKeepsGoing<V>(c: Config, lines: seq<Option<V>>, run: seq<State<V>>, acts: seq<Action<V>>, k: nat)
    requires IsRun(c, lines, run, acts) && k < |run| && c.dests != []
    ensures Routed(c, run[k].queues) && c.controlQueue < |run[k].queues|
    ensures var pending := Controls(run[k].queues[c.controlQueue]);
      && pending <= 1
      && (pending == 0 <==> run[k].controls == |Readable(lines)| + 1)
      && (pending == 0 ==> run[k].read == Readable(lines))
  {
    RunInv(c, lines, run, acts, k, c.dests[0]);
  }
}
