/** The parallel form of a program: each trigger forwards its message to the groups that hold its
    tasks, and each group's dispatcher hands the argument to them. */
module Dispatch {

  /* ---------- Names ---------- */

  function DropUnderscores(s: string): string
    decreases |s|
  {
    if s != [] && s[0] == '_' then DropUnderscores(s[1..]) else s
  }

  function UpToUnderscore(s: string): string
    decreases |s|
  {
    if s == [] || s[0] == '_' then [] else [s[0]] + UpToUnderscore(s[1..])
  }

  /** The first word of a task name, words being separated by underscores. */
  function TriggerOf(task: string): string { UpToUnderscore(DropUnderscores(task)) }

  predicate OnlyUnderscores(s: string) { forall i :: 0 <= i < |s| ==> s[i] == '_' }

  lemma {:induction false} WordEnds(w: string, rest: string)
    requires '_' !in w && (rest != [] ==> rest[0] == '_')
    ensures UpToUnderscore(w + rest) == w
    decreases |w|
  {
    if w == [] {
      assert w + rest == rest;
    } else {
      assert (w + rest)[1..] == w[1..] + rest;
      WordEnds(w[1..], rest);
    }
  }

  /** The first word is what stands between the leading underscores, if any, and the next one. */
  lemma {:induction false} FirstWord(lead: string, w: string, rest: string)
    requires OnlyUnderscores(lead) && '_' !in w && (rest != [] ==> rest[0] == '_' && w != [])
    ensures TriggerOf(lead + w + rest) == w
    decreases |lead|
  {
    if lead == [] {
      assert lead + w + rest == w + rest;
      if w != [] { assert (w + rest)[0] == w[0]; }
      WordEnds(w, rest);
    } else {
      assert (lead + w + rest)[1..] == lead[1..] + w + rest && (lead + w + rest)[0] == '_';
      FirstWord(lead[1..], w, rest);
    }
  }

  /** The list without later repetitions. */
  function Nub(l: seq<string>): seq<string>
    decreases |l|
  {
    if l == [] then [] else [l[0]] + Without(Nub(l[1..]), l[0])
  }

  function Without(l: seq<string>, x: string): seq<string>
    decreases |l|
  {
    if l == [] then [] else (if l[0] == x then [] else [l[0]]) + Without(l[1..], x)
  }

  function MapTrigger(l: seq<string>): seq<string>
    decreases |l|
  {
    if l == [] then [] else [TriggerOf(l[0])] + MapTrigger(l[1..])
  }

  function TriggersForGroup(group: seq<string>): seq<string> { Nub(MapTrigger(group)) }

  /** The tasks of a group whose names start with the trigger's name. */
  function TasksForTrigger(n: string, group: seq<string>): seq<string>
    decreases |group|
  {
    if group == [] then []
    else (if n <= group[0] then [group[0]] else []) + TasksForTrigger(n, group[1..])
  }

  /* ---------- The generated program ---------- */

  /** One component of a group message: the trigger's argument, or unit. */
  datatype Arg<+V> = Unit | Payload(v: V)

  /** What a group receives: the name of the trigger and one component for each of its triggers. */
  datatype GroupMessage<+V> = GroupMessage(tname: string, args: seq<Arg<V>>)

  function MessageArgs<V>(ts: seq<string>, n: string, v: V): seq<Arg<V>>
    decreases |ts|
  {
    if ts == [] then [] else [if ts[0] == n then Payload(v) else Unit] + MessageArgs(ts[1..], n, v)
  }

  /** The rewritten trigger n sends this to each group holding a task with its prefix. */
  function GetMessage<V>(n: string, v: V, group: seq<string>): GroupMessage<V> {
    GroupMessage(n, MessageArgs(TriggersForGroup(group), n, v))
  }

  function SendTo<V>(tasks: seq<string>, a: Arg<V>): seq<(string, Arg<V>)>
    decreases |tasks|
  {
    if tasks == [] then [] else [(tasks[0], a)] + SendTo(tasks[1..], a)
  }

  /** The dispatcher: for each of its triggers in turn, if the message is for it, send the
      component of that trigger to the tasks with its prefix. */
  function DispatchOver<V>(ts: seq<string>, group: seq<string>, tname: string, args: seq<Arg<V>>): seq<(string, Arg<V>)>
    requires |ts| == |args|
    decreases |ts|
  {
    if ts == [] then []
    else
      var sent := if tname == ts[0] then SendTo(TasksForTrigger(ts[0], group), args[0]) else [];
      sent + DispatchOver(ts[1..], group, tname, args[1..])
  }

  lemma {:induction false} MessageArgsLength<V>(ts: seq<string>, n: string, v: V)
    ensures |MessageArgs(ts, n, v)| == |ts|
    decreases |ts|
  {
    if ts != [] { MessageArgsLength(ts[1..], n, v); }
  }

  /** All messages to tasks that one message v to trigger n causes. */
  function Deliveries<V>(groups: seq<seq<string>>, n: string, v: V): seq<(string, Arg<V>)>
    decreases |groups|
  {
    if groups == [] then []
    else
      var g := groups[0];
      MessageArgsLength(TriggersForGroup(g), n, v);
      var sent := if TasksForTrigger(n, g) != []
        then DispatchOver(TriggersForGroup(g), g, n, GetMessage(n, v, g).args) else [];
      sent + Deliveries(groups[1..], n, v)
  }

  /* ---------- Exactly what is delivered ---------- */

  predicate HoldsTaskOf(g: seq<string>, n: string) { n in MapTrigger(g) }

  function Expected<V>(groups: seq<seq<string>>, n: string, v: V): seq<(string, Arg<V>)>
    decreases |groups|
  {
    if groups == [] then []
    else
      var sent := if HoldsTaskOf(groups[0], n) then SendTo(TasksForTrigger(n, groups[0]), Payload(v)) else [];
      sent + Expected(groups[1..], n, v)
  }

  lemma {:induction false} InWithout(l: seq<string>, x: string, y: string)
    ensures y in Without(l, x) <==> y in l && y != x
    decreases |l|
  {
    if l != [] { InWithout(l[1..], x, y); }
  }

  lemma {:induction false} InNub(l: seq<string>, y: string)
    ensures y in Nub(l) <==> y in l
    decreases |l|
  {
    if l != [] {
      InNub(l[1..], y);
      InWithout(Nub(l[1..]), l[0], y);
    }
  }

  predicate NoRepeats(l: seq<string>)
    decreases |l|
  {
    l == [] || (l[0] !in l[1..] && NoRepeats(l[1..]))
  }

  lemma {:induction false} WithoutNoRepeats(l: seq<string>, x: string)
    requires NoRepeats(l)
    ensures NoRepeats(Without(l, x))
    decreases |l|
  {
    if l != [] {
      WithoutNoRepeats(l[1..], x);
      InWithout(l[1..], x, l[0]);
      var rest := Without(l[1..], x);
      if l[0] == x { assert Without(l, x) == rest; } else { assert Without(l, x)[1..] == rest; }
    }
  }

  lemma {:induction false} NubNoRepeats(l: seq<string>)
    ensures NoRepeats(Nub(l))
    decreases |l|
  {
    if l != [] {
      NubNoRepeats(l[1..]);
      WithoutNoRepeats(Nub(l[1..]), l[0]);
      InWithout(Nub(l[1..]), l[0], l[0]);
      assert Nub(l)[1..] == Without(Nub(l[1..]), l[0]);
    }
  }

  lemma {:induction false} DispatchOnce<V>(ts: seq<string>, g: seq<string>, n: string, v: V)
    requires NoRepeats(ts)
    ensures |MessageArgs(ts, n, v)| == |ts|
    ensures DispatchOver(ts, g, n, MessageArgs(ts, n, v)) == if n in ts then SendTo(TasksForTrigger(n, g), Payload(v)) else []
    decreases |ts|
  {
    MessageArgsLength(ts, n, v);
    if ts != [] {
      var args := MessageArgs(ts, n, v);
      assert args[1..] == MessageArgs(ts[1..], n, v);
      DispatchOnce(ts[1..], g, n, v);
    }
  }

  /** A group message has one component for each of the group's triggers, in one order for sender and
      dispatcher; the one of the trigger that sends carries the argument, all others are empty. */
  lemma {:induction false} OneComponentCarries<V>(ts: seq<string>, n: string, v: V, i: nat)
    requires i < |ts|
    ensures |MessageArgs(ts, n, v)| == |ts|
    ensures MessageArgs(ts, n, v)[i] == if ts[i] == n then Payload(v) else Unit
    decreases i
  {
    MessageArgsLength(ts, n, v);
    if i > 0 { OneComponentCarries(ts[1..], n, v, i - 1); }
  }

  /** Whatever the names: a message to n reaches, in every group with a task whose first word is n, each
      task whose name n starts, and carries n's argument. A group with such a word but no such name (one
      whose tasks begin with underscores) is not forwarded to. */
  lemma {:induction false} DeliveriesExact<V>(groups: seq<seq<string>>, n: string, v: V)
    requires forall g :: g in groups && HoldsTaskOf(g, n) ==> TasksForTrigger(n, g) != []
    ensures Deliveries(groups, n, v) == Expected(groups, n, v)
    decreases |groups|
  {
    if groups != [] {
      var g := groups[0];
      NubNoRepeats(MapTrigger(g));
      InNub(MapTrigger(g), n);
      DispatchOnce(TriggersForGroup(g), g, n, v);
      DeliveriesExact(groups[1..], n, v);
    }
  }

  /* ---------- Task names ---------- */

  predicate GoodName(n: string) { n != [] && '_' !in n }

  /** A task name: the trigger's name, an underscore and a number. */
  predicate IsTaskOf(task: string, n: string) {
    |task| > |n| && task[..|n|] == n && task[|n|] == '_'
  }

  lemma {:induction false} UpToName(n: string, rest: string)
    requires '_' !in n && rest != [] && rest[0] == '_'
    ensures UpToUnderscore(n + rest) == n
    decreases |n|
  {
    if n == [] {
      assert n + rest == rest;
    } else {
      assert (n + rest)[1..] == n[1..] + rest;
      UpToName(n[1..], rest);
    }
  }

  lemma TaskTrigger(task: string, n: string)
    requires GoodName(n) && IsTaskOf(task, n)
    ensures TriggerOf(task) == n && n <= task
  {
    assert task == n + task[|n|..];
    assert task[0] == n[0];
    UpToName(n, task[|n|..]);
  }

  lemma PrefixOfTask(task: string, m: string, n: string)
    requires GoodName(m) && GoodName(n) && IsTaskOf(task, m)
    ensures n <= task <==> n <= m
  {
    if n <= task {
      assert forall k :: 0 <= k < |n| ==> n[k] == task[k] && n[k] in n;
      assert n == task[..|n|] == m[..|n|];
    }
    if n <= m { assert n == m[..|n|] == task[..|n|]; }
  }

  /* ---------- Each task of the trigger exactly once ---------- */

  function Flat(groups: seq<seq<string>>): seq<string>
    decreases |groups|
  {
    if groups == [] then [] else groups[0] + Flat(groups[1..])
  }

  /** Every name in the groups is a task of one of the triggers. */
  predicate TasksOf(groups: seq<seq<string>>, ns: seq<string>) {
    forall g, s :: g in groups && s in g ==> exists m :: m in ns && IsTaskOf(s, m)
  }

  /** No group holds tasks of both n and another trigger whose name n starts. */
  predicate PrefixSafe(groups: seq<seq<string>>, ns: seq<string>, n: string) {
    forall g, s :: g in groups && s in g && HoldsTaskOf(g, n) && n <= s ==> IsTaskOf(s, n)
  }

  function TasksIn(l: seq<string>, n: string): seq<string>
    decreases |l|
  {
    if l == [] then [] else (if IsTaskOf(l[0], n) then [l[0]] else []) + TasksIn(l[1..], n)
  }

  lemma {:induction false} TasksInConcat(a: seq<string>, b: seq<string>, n: string)
    ensures TasksIn(a + b, n) == TasksIn(a, n) + TasksIn(b, n)
    decreases |a|
  {
    if a == [] {
      assert a + b == b;
    } else {
      assert (a + b)[1..] == a[1..] + b;
      TasksInConcat(a[1..], b, n);
    }
  }

  lemma {:induction false} SendToConcat<V>(a: seq<string>, b: seq<string>, x: Arg<V>)
    ensures SendTo(a + b, x) == SendTo(a, x) + SendTo(b, x)
    decreases |a|
  {
    if a == [] {
      assert a + b == b;
    } else {
      assert (a + b)[1..] == a[1..] + b;
      SendToConcat(a[1..], b, x);
    }
  }

  lemma {:induction false} InMapTrigger(g: seq<string>, s: string)
    requires s in g
    ensures TriggerOf(s) in MapTrigger(g)
    decreases |g|
  {
    if s != g[0] { InMapTrigger(g[1..], s); }
  }

  lemma {:induction false} MapTriggerHas(g: seq<string>, n: string) returns (s: string)
    requires n in MapTrigger(g)
    ensures s in g && TriggerOf(s) == n
    decreases |g|
  {
    if TriggerOf(g[0]) == n { s := g[0]; } else { s := MapTriggerHas(g[1..], n); }
  }

  lemma {:induction false} InTasksForTrigger(g: seq<string>, n: string, s: string)
    ensures s in TasksForTrigger(n, g) <==> s in g && n <= s
    decreases |g|
  {
    if g != [] { InTasksForTrigger(g[1..], n, s); }
  }

  lemma {:induction false} InTasksIn(g: seq<string>, n: string, s: string)
    ensures s in TasksIn(g, n) <==> s in g && IsTaskOf(s, n)
    decreases |g|
  {
    if g != [] { InTasksIn(g[1..], n, s); }
  }

  lemma {:induction false} PrefixIsTask(g: seq<string>, n: string)
    requires forall s :: s in g && n <= s ==> IsTaskOf(s, n)
    ensures TasksForTrigger(n, g) == TasksIn(g, n)
    decreases |g|
  {
    if g != [] {
      PrefixIsTask(g[1..], n);
      if IsTaskOf(g[0], n) { assert n == g[0][..|n|]; }
    }
  }

  lemma GroupHolds(groups: seq<seq<string>>, ns: seq<string>, g: seq<string>, n: string)
    requires (forall m :: m in ns ==> GoodName(m)) && n in ns && TasksOf(groups, ns) && g in groups
    ensures HoldsTaskOf(g, n) <==> TasksIn(g, n) != []
    ensures HoldsTaskOf(g, n) ==> TasksForTrigger(n, g) != []
  {
    if HoldsTaskOf(g, n) {
      var s := MapTriggerHas(g, n);
      var m :| m in ns && IsTaskOf(s, m);
      TaskTrigger(s, m);
      InTasksIn(g, n, s);
      InTasksForTrigger(g, n, s);
    }
    if TasksIn(g, n) != [] {
      var s := TasksIn(g, n)[0];
      InTasksIn(g, n, s);
      TaskTrigger(s, n);
      InMapTrigger(g, s);
    }
  }

  lemma {:induction false} ExpectedIsTasks<V>(groups: seq<seq<string>>, ns: seq<string>, n: string, v: V)
    requires (forall m :: m in ns ==> GoodName(m)) && n in ns && TasksOf(groups, ns) && PrefixSafe(groups, ns, n)
    ensures Expected(groups, n, v) == SendTo(TasksIn(Flat(groups), n), Payload(v))
    decreases |groups|
  {
    if groups != [] {
      var g := groups[0];
      assert g in groups;
      GroupHolds(groups, ns, g, n);
      if HoldsTaskOf(g, n) { PrefixIsTask(g, n); }
      assert forall h :: h in groups[1..] ==> h in groups;
      ExpectedIsTasks(groups[1..], ns, n, v);
      TasksInConcat(g, Flat(groups[1..]), n);
      SendToConcat(TasksIn(g, n), TasksIn(Flat(groups[1..]), n), Payload(v));
    }
  }

  lemma {:induction false} InExpected<V>(groups: seq<seq<string>>, n: string, v: V, g: seq<string>, s: string)
    requires g in groups && HoldsTaskOf(g, n) && s in g && n <= s
    ensures (s, Payload(v)) in Expected(groups, n, v)
    decreases |groups|
  {
    if g == groups[0] {
      InTasksForTrigger(g, n, s);
      InSendTo(TasksForTrigger(n, g), s, Payload(v));
    } else {
      InExpected(groups[1..], n, v, g, s);
    }
  }

  lemma {:induction false} InSendTo<V>(tasks: seq<string>, s: string, a: Arg<V>)
    ensures (s, a) in SendTo(tasks, a) <==> s in tasks
    decreases |tasks|
  {
    if tasks != [] { InSendTo(tasks[1..], s, a); }
  }

  /** With underscore-free trigger names, a message to n is passed to each of n's tasks as often as
      the groups list it, with n's argument, and to no other task, exactly when no group mixes tasks
      of n with tasks of a trigger whose name extends n. */
  lemma DeliveredToOwnTasks<V>(groups: seq<seq<string>>, ns: seq<string>, n: string, v: V)
    requires (forall m :: m in ns ==> GoodName(m)) && n in ns && TasksOf(groups, ns)
    ensures Deliveries(groups, n, v) == SendTo(TasksIn(Flat(groups), n), Payload(v)) <==> PrefixSafe(groups, ns, n)
  {
    forall g | g in groups && HoldsTaskOf(g, n) ensures TasksForTrigger(n, g) != [] { GroupHolds(groups, ns, g, n); }
    DeliveriesExact(groups, n, v);
    if PrefixSafe(groups, ns, n) {
      ExpectedIsTasks(groups, ns, n, v);
    } else {
      var g, s :| g in groups && s in g && HoldsTaskOf(g, n) && n <= s && !IsTaskOf(s, n);
      InExpected(groups, n, v, g, s);
      InSendTo(TasksIn(Flat(groups), n), s, Payload(v));
      InTasksIn(Flat(groups), n, s);
    }
  }

  /** In particular it holds for every grouping when no trigger name is a prefix of another. */
  lemma PrefixFreeIsSafe(groups: seq<seq<string>>, ns: seq<string>, n: string)
    requires (forall m :: m in ns ==> GoodName(m)) && n in ns && TasksOf(groups, ns)
    requires forall m :: m in ns && n <= m ==> m == n
    ensures PrefixSafe(groups, ns, n)
  {
    forall g, s | g in groups && s in g && HoldsTaskOf(g, n) && n <= s ensures IsTaskOf(s, n) {
      var m :| m in ns && IsTaskOf(s, m);
      PrefixOfTask(s, m, n);
    }
  }

  /** When the groups list every task once, every task of n is sent the argument exactly once. */
  lemma {:induction false} EachTaskOnce<V>(groups: seq<seq<string>>, ns: seq<string>, n: string, v: V, s: string)
    requires (forall m :: m in ns ==> GoodName(m)) && n in ns && TasksOf(groups, ns) && PrefixSafe(groups, ns, n)
    requires NoRepeats(Flat(groups)) && s in Flat(groups)
    ensures multiset(Deliveries(groups, n, v))[(s, Payload(v))] == if IsTaskOf(s, n) then 1 else 0
  {
    DeliveredToOwnTasks(groups, ns, n, v);
    CountSendTo(TasksIn(Flat(groups), n), s, Payload(v));
    CountTasksIn(Flat(groups), n, s);
    CountNoRepeats(Flat(groups), s);
  }

  lemma {:induction false} CountSendTo<V>(tasks: seq<string>, s: string, a: Arg<V>)
    ensures multiset(SendTo(tasks, a))[(s, a)] == multiset(tasks)[s]
    decreases |tasks|
  {
    if tasks != [] {
      CountSendTo(tasks[1..], s, a);
      assert tasks == [tasks[0]] + tasks[1..];
    }
  }

  lemma {:induction false} CountTasksIn(l: seq<string>, n: string, s: string)
    ensures multiset(TasksIn(l, n))[s] == if IsTaskOf(s, n) then multiset(l)[s] else 0
    decreases |l|
  {
    if l != [] {
      CountTasksIn(l[1..], n, s);
      assert l == [l[0]] + l[1..];
    }
  }

  lemma {:induction false} CountNoRepeats(l: seq<string>, s: string)
    requires NoRepeats(l) && s in l
    ensures multiset(l)[s] == 1
    decreases |l|
  {
    assert l == [l[0]] + l[1..];
    if s != l[0] { CountNoRepeats(l[1..], s); }
  }

  /** A grouping that goes wrong: when n starts m and their first tasks share a group, n's argument
      also reaches the task of m. */
  lemma PrefixedNameMisdelivers<V>(n: string, m: string, v: V)
    requires GoodName(n) && GoodName(m) && n <= m && n != m
    ensures IsTaskOf(m + "_1", m) && !IsTaskOf(m + "_1", n)
    ensures (m + "_1", Payload(v)) in Deliveries([[n + "_1", m + "_1"]], n, v)
  {
    var g := [n + "_1", m + "_1"];
    var s, t := g[0], g[1];
    assert (m + "_1")[|n|] == m[|n|] && m[|n|] in m;
    TaskTrigger(s, n);
    InMapTrigger(g, s);
    InTasksForTrigger(g, n, s);
    DeliveriesExact([g], n, v);
    InExpected([g], n, v, g, t);
  }
}
