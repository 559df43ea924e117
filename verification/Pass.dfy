/** The parallelising pass as a whole. A program's messages, forwarded to groups and handed to tasks
    that run in parallel, leave the globals that the undivided triggers leave one after the other. */
module Pass {
  import opened Options
  import opened Decimals
  import opened Conflicts
  import opened Tasks
  import Cohorts
  import Dispatch

  datatype Trigger = Trigger(name: string, param: string, body: Expr)

  /** A message to one of the program's triggers. */
  datatype Call = Call(t: nat, arg: Value)

  function TaskName(n: string, k: nat): string { n + "_" + Digits(k) }

  function TasksOfTrigger(t: Trigger): seq<Cohorts.Task> {
    var bodies := SplitSeq(t.body);
    seq(|bodies|, i requires 0 <= i < |bodies| => Cohorts.Task(TaskName(t.name, i + 1), bodies[i]))
  }

  function AllTasks(ts: seq<Trigger>): seq<Cohorts.Task>
    decreases |ts|
  {
    if ts == [] then [] else TasksOfTrigger(ts[0]) + AllTasks(ts[1..])
  }

  /** The undivided triggers, one message after the other. */
  function RunCalls(ts: seq<Trigger>, calls: seq<Call>, g: Env): Option<Env>
    requires ValidCalls(ts, calls)
    decreases |calls|
  {
    if calls == [] then Some(g)
    else
      assert calls[0] in calls;
      match RunTrigger(ts[calls[0].t].body, ts[calls[0].t].param, calls[0].arg, g)
      case None => None
      case Some(g1) => RunCalls(ts, calls[1..], g1)
  }

  predicate ValidCalls(ts: seq<Trigger>, calls: seq<Call>) { forall c :: c in calls ==> c.t < |ts| }

  /** The position of a task, or one past the end. */
  function IndexOf(tasks: seq<Cohorts.Task>, s: string): (i: nat)
    ensures i <= |tasks| && (i < |tasks| ==> tasks[i].name == s)
    ensures forall j :: 0 <= j < i ==> tasks[j].name != s
    decreases |tasks|
  {
    if tasks == [] then 0 else if tasks[0].name == s then 0 else 1 + IndexOf(tasks[1..], s)
  }

  function Content(a: Dispatch.Arg<Value>): Value { if a.Payload? then a.v else Unit }

  /** Deliveries of the generated program as messages to tasks. */
  function ToMessages(tasks: seq<Cohorts.Task>, param: string, ds: seq<(string, Dispatch.Arg<Value>)>): seq<Cohorts.Message> {
    seq(|ds|, i requires 0 <= i < |ds| => Cohorts.Message(IndexOf(tasks, ds[i].0), param, Content(ds[i].1)))
  }

  /** What a group's dispatcher hands to the group's tasks, call by call. */
  function Handed(ts: seq<Trigger>, groups: seq<seq<string>>, calls: seq<Call>): seq<Cohorts.Message>
    requires ValidCalls(ts, calls)
    decreases |calls|
  {
    if calls == [] then []
    else
      assert calls[0] in calls;
      var t := ts[calls[0].t];
      ToMessages(AllTasks(ts), t.param, Dispatch.Deliveries(groups, t.name, calls[0].arg)) + Handed(ts, groups, calls[1..])
  }

  function TriggerNames(ts: seq<Trigger>): seq<string> { seq(|ts|, i requires 0 <= i < |ts| => ts[i].name) }

  /** Trigger names differ, have no underscore, and none starts another whose task shares a group with
      its own. */
  ghost predicate GoodProgram(ts: seq<Trigger>, groups: seq<seq<string>>) {
    && (forall i, j :: 0 <= i < j < |ts| ==> ts[i].name != ts[j].name)
    && (forall i :: 0 <= i < |ts| ==> Dispatch.GoodName(ts[i].name) && Dispatch.PrefixSafe(groups, TriggerNames(ts), ts[i].name))
    && Cohorts.WellLabelled(AllTasks(ts))
  }

  /** The groups list the cohorts, each task once. */
  ghost predicate ListCohorts(ts: seq<Trigger>, vs: seq<string>, groups: seq<seq<string>>) {
    var cohorts := Cohorts.GroupTasks(AllTasks(ts), vs);
    && Cohorts.Lists(AllTasks(ts), vs) && |groups| == |cohorts| && Dispatch.NoRepeats(Dispatch.Flat(groups))
    && forall i :: 0 <= i < |groups| ==> forall s :: s in groups[i] <==> s in cohorts[i]
  }

  /** An interleaving in which every cohort gets, in order, what its dispatcher hands it. */
  ghost predicate Interleaves(ts: seq<Trigger>, vs: seq<string>, groups: seq<seq<string>>, calls: seq<Call>, ms: seq<Cohorts.Message>)
    requires ValidCalls(ts, calls) && |groups| == |Cohorts.GroupTasks(AllTasks(ts), vs)|
  {
    && Cohorts.ValidMessages(AllTasks(ts), ms)
    && forall i :: 0 <= i < |groups| ==>
         Cohorts.Received(AllTasks(ts), Cohorts.GroupTasks(AllTasks(ts), vs)[i], ms) == Handed(ts, [groups[i]], calls)
  }

  /* ---------- Task names ---------- */

  function NamesOf(tasks: seq<Cohorts.Task>): seq<string> { seq(|tasks|, i requires 0 <= i < |tasks| => tasks[i].name) }

  lemma {:induction false} TaskNamed(m: string, k: nat, n: string)
    requires Dispatch.GoodName(m) && Dispatch.GoodName(n)
    ensures Dispatch.IsTaskOf(TaskName(m, k), n) <==> m == n
  {
    var s := TaskName(m, k);
    assert s[..|m|] == m && s[|m|] == '_';
    Dispatch.TaskTrigger(s, m);
    if Dispatch.IsTaskOf(s, n) { Dispatch.TaskTrigger(s, n); }
  }

  /** Selecting the tasks of n from the tasks of one trigger. */
  lemma {:induction false} OwnNames(names: seq<string>, m: string, n: string)
    requires Dispatch.GoodName(m) && Dispatch.GoodName(n) && forall s :: s in names ==> exists k: nat :: s == TaskName(m, k)
    ensures Dispatch.TasksIn(names, n) == if m == n then names else []
    decreases |names|
  {
    if names != [] {
      assert names[0] in names;
      var k: nat :| names[0] == TaskName(m, k);
      TaskNamed(m, k, n);
      assert forall s :: s in names[1..] ==> s in names;
      OwnNames(names[1..], m, n);
      assert names == [names[0]] + names[1..];
    }
  }

  lemma {:induction false} TriggerTaskNames(t: Trigger)
    ensures forall s :: s in NamesOf(TasksOfTrigger(t)) ==> exists k: nat :: s == TaskName(t.name, k)
  {
    var l := TasksOfTrigger(t);
    forall s | s in NamesOf(l) ensures exists k: nat :: s == TaskName(t.name, k) {
      var i :| 0 <= i < |l| && NamesOf(l)[i] == s;
      var k: nat := i + 1;
      assert s == TaskName(t.name, k);
    }
  }

  lemma {:induction false} NamesOfConcat(a: seq<Cohorts.Task>, b: seq<Cohorts.Task>)
    ensures NamesOf(a + b) == NamesOf(a) + NamesOf(b)
  {}

  /** The tasks that carry a trigger's name are those its body is split into, in order. */
  lemma {:induction false} OwnTasks(ts: seq<Trigger>, n: string)
    requires Dispatch.GoodName(n) && (forall i, j :: 0 <= i < j < |ts| ==> ts[i].name != ts[j].name)
    requires forall i :: 0 <= i < |ts| ==> Dispatch.GoodName(ts[i].name)
    ensures (forall i :: 0 <= i < |ts| ==> ts[i].name != n) ==> Dispatch.TasksIn(NamesOf(AllTasks(ts)), n) == []
    ensures forall i :: 0 <= i < |ts| && ts[i].name == n ==>
      Dispatch.TasksIn(NamesOf(AllTasks(ts)), n) == NamesOf(TasksOfTrigger(ts[i]))
    decreases |ts|
  {
    if ts != [] {
      var t, rest := ts[0], ts[1..];
      NamesOfConcat(TasksOfTrigger(t), AllTasks(rest));
      Dispatch.TasksInConcat(NamesOf(TasksOfTrigger(t)), NamesOf(AllTasks(rest)), n);
      TriggerTaskNames(t);
      OwnNames(NamesOf(TasksOfTrigger(t)), t.name, n);
      OwnTasks(rest, n);
      forall i | 0 <= i < |ts| && ts[i].name == n
        ensures Dispatch.TasksIn(NamesOf(AllTasks(ts)), n) == NamesOf(TasksOfTrigger(ts[i]))
      {
        if i > 0 { assert rest[i - 1] == ts[i]; }
      }
      assert forall i :: 0 <= i < |rest| ==> rest[i] == ts[i + 1];
    }
  }

  lemma {:induction false} NamedByTrigger(ts: seq<Trigger>, s: string)
    requires s in NamesOf(AllTasks(ts))
    ensures exists i, k: nat :: 0 <= i < |ts| && s == TaskName(ts[i].name, k)
    decreases |ts|
  {
    if ts != [] {
      NamesOfConcat(TasksOfTrigger(ts[0]), AllTasks(ts[1..]));
      if s in NamesOf(TasksOfTrigger(ts[0])) {
        TriggerTaskNames(ts[0]);
      } else {
        NamedByTrigger(ts[1..], s);
        var i, k: nat :| 0 <= i < |ts[1..]| && s == TaskName(ts[1..][i].name, k);
        assert s == TaskName(ts[i + 1].name, k);
      }
    }
  }

  /* ---------- What is handed out ---------- */

  function MessagesTo(tasks: seq<Cohorts.Task>, param: string, names: seq<string>, v: Value): seq<Cohorts.Message> {
    seq(|names|, i requires 0 <= i < |names| => Cohorts.Message(IndexOf(tasks, names[i]), param, v))
  }

  lemma {:induction false} MessagesConcat(tasks: seq<Cohorts.Task>, param: string, a: seq<string>, b: seq<string>, v: Value)
    ensures MessagesTo(tasks, param, a + b, v) == MessagesTo(tasks, param, a, v) + MessagesTo(tasks, param, b, v)
  {}

  lemma {:induction false} SentAre(tasks: seq<Cohorts.Task>, param: string, names: seq<string>, v: Value)
    ensures ToMessages(tasks, param, Dispatch.SendTo(names, Dispatch.Payload(v))) == MessagesTo(tasks, param, names, v)
    decreases |names|
  {
    if names != [] {
      SentAre(tasks, param, names[1..], v);
      var ds := Dispatch.SendTo(names, Dispatch.Payload(v));
      assert ds == [(names[0], Dispatch.Payload(v))] + Dispatch.SendTo(names[1..], Dispatch.Payload(v));
      assert ToMessages(tasks, param, ds)[1..] == ToMessages(tasks, param, ds[1..]);
      assert MessagesTo(tasks, param, names, v)[1..] == MessagesTo(tasks, param, names[1..], v);
      assert ToMessages(tasks, param, ds)[0] == MessagesTo(tasks, param, names, v)[0];
    }
  }

  lemma {:induction false} InFlat(groups: seq<seq<string>>, s: string)
    ensures s in Dispatch.Flat(groups) <==> exists i :: 0 <= i < |groups| && s in groups[i]
    decreases |groups|
  {
    if groups != [] {
      InFlat(groups[1..], s);
      if exists i :: 0 <= i < |groups| && s in groups[i] {
        var i :| 0 <= i < |groups| && s in groups[i];
        if i > 0 { assert s in groups[1..][i - 1]; }
      }
    }
  }

  lemma {:induction false} FlatIsAll(ts: seq<Trigger>, vs: seq<string>, groups: seq<seq<string>>)
    requires ListCohorts(ts, vs, groups)
    ensures forall s :: s in Dispatch.Flat(groups) <==> s in NamesOf(AllTasks(ts))
  {
    forall s ensures s in Dispatch.Flat(groups) <==> s in NamesOf(AllTasks(ts)) {
      InFlat(groups, s);
      InNames(AllTasks(ts), s);
      InCohorts(AllTasks(ts), vs, s);
    }
  }

  lemma {:induction false} InNames(tasks: seq<Cohorts.Task>, s: string)
    ensures s in NamesOf(tasks) <==> s in Cohorts.Names(tasks)
  {
    if s in NamesOf(tasks) {
      var i :| 0 <= i < |tasks| && NamesOf(tasks)[i] == s;
      assert tasks[i] in tasks;
    }
    if s in Cohorts.Names(tasks) {
      var t :| t in tasks && t.name == s;
      var i :| 0 <= i < |tasks| && tasks[i] == t;
      assert NamesOf(tasks)[i] == s;
    }
  }

  lemma {:induction false} InCohorts(tasks: seq<Cohorts.Task>, vs: seq<string>, s: string)
    requires Cohorts.Lists(tasks, vs)
    ensures s in Cohorts.Names(tasks) <==> exists i :: 0 <= i < |Cohorts.GroupTasks(tasks, vs)| && s in Cohorts.GroupTasks(tasks, vs)[i]
  {
    Cohorts.CohortsPartition(tasks, vs);
    var cohorts := Cohorts.GroupTasks(tasks, vs);
    forall i | 0 <= i < |cohorts| && s in cohorts[i] ensures s in Cohorts.Names(tasks) { assert cohorts[i] in cohorts; }
    if s in Cohorts.Names(tasks) { CohortHolds(tasks, cohorts, s); }
  }

  lemma {:induction false} CohortHolds(tasks: seq<Cohorts.Task>, cohorts: seq<set<string>>, s: string)
    requires s in Cohorts.Names(tasks) && forall i :: 0 <= i < |tasks| ==> exists c :: c in cohorts && tasks[i].name in c
    ensures exists i :: 0 <= i < |cohorts| && s in cohorts[i]
  {
    var t :| t in tasks && t.name == s;
    var i :| 0 <= i < |tasks| && tasks[i] == t;
    var c :| c in cohorts && tasks[i].name in c;
  }

  lemma {:induction false} GroupsHoldTasks(ts: seq<Trigger>, vs: seq<string>, groups: seq<seq<string>>)
    requires GoodProgram(ts, groups) && ListCohorts(ts, vs, groups)
    ensures Dispatch.TasksOf(groups, TriggerNames(ts))
  {
    FlatIsAll(ts, vs, groups);
    forall g, s | g in groups && s in g ensures exists m :: m in TriggerNames(ts) && Dispatch.IsTaskOf(s, m) {
      var j :| 0 <= j < |groups| && groups[j] == g;
      InFlat(groups, s);
      NamedByTrigger(ts, s);
      var i, k: nat :| 0 <= i < |ts| && s == TaskName(ts[i].name, k);
      TaskNamed(ts[i].name, k, ts[i].name);
      assert TriggerNames(ts)[i] == ts[i].name;
    }
  }

  /** What some of the groups, or all of them, are handed for one call. */
  lemma {:induction false} HandedOut(ts: seq<Trigger>, groups: seq<seq<string>>, some: seq<seq<string>>, t: nat, v: Value)
    requires GoodProgram(ts, groups) && Dispatch.TasksOf(groups, TriggerNames(ts)) && t < |ts| && forall g :: g in some ==> g in groups
    ensures ToMessages(AllTasks(ts), ts[t].param, Dispatch.Deliveries(some, ts[t].name, v)) ==
      MessagesTo(AllTasks(ts), ts[t].param, Dispatch.TasksIn(Dispatch.Flat(some), ts[t].name), v)
  {
    var ns, n := TriggerNames(ts), ts[t].name;
    assert ns[t] == n;
    assert Dispatch.PrefixSafe(some, ns, n);
    Dispatch.DeliveredToOwnTasks(some, ns, n, v);
    SentAre(AllTasks(ts), ts[t].param, Dispatch.TasksIn(Dispatch.Flat(some), n), v);
  }

  /* ---------- What each cohort receives ---------- */

  ghost predicate KnownNames(tasks: seq<Cohorts.Task>, names: seq<string>) { forall s :: s in names ==> s in NamesOf(tasks) }

  lemma {:induction false} KnownIndex(tasks: seq<Cohorts.Task>, s: string)
    requires s in NamesOf(tasks)
    ensures IndexOf(tasks, s) < |tasks| && tasks[IndexOf(tasks, s)].name == s
  {
    var i :| 0 <= i < |tasks| && NamesOf(tasks)[i] == s;
  }

  lemma {:induction false} MessagesValid(tasks: seq<Cohorts.Task>, param: string, names: seq<string>, v: Value)
    requires KnownNames(tasks, names)
    ensures Cohorts.ValidMessages(tasks, MessagesTo(tasks, param, names, v))
  {
    forall m | m in MessagesTo(tasks, param, names, v) ensures m.task < |tasks| {
      var i :| 0 <= i < |names| && MessagesTo(tasks, param, names, v)[i] == m;
      KnownIndex(tasks, names[i]);
    }
  }

  /** A cohort receives all of the messages to its own tasks and none of those to others. */
  lemma {:induction false} ReceivedOwn(tasks: seq<Cohorts.Task>, c: set<string>, param: string, names: seq<string>, v: Value, own: bool)
    requires KnownNames(tasks, names) && forall s :: s in names ==> (s in c <==> own)
    ensures Cohorts.ValidMessages(tasks, MessagesTo(tasks, param, names, v))
    ensures Cohorts.Received(tasks, c, MessagesTo(tasks, param, names, v)) == if own then MessagesTo(tasks, param, names, v) else []
    decreases |names|
  {
    MessagesValid(tasks, param, names, v);
    if names != [] {
      assert names[0] in names;
      KnownIndex(tasks, names[0]);
      var m, rest := MessagesTo(tasks, param, names, v)[0], MessagesTo(tasks, param, names[1..], v);
      assert MessagesTo(tasks, param, names, v) == [m] + rest;
      ReceivedOwn(tasks, c, param, names[1..], v, own);
      Cohorts.ReceivedFirst(tasks, c, m, rest);
    }
  }

  /** Of what all groups are handed, the cohort receives what its own group is handed. */
  lemma {:induction false} ReceivedPart(tasks: seq<Cohorts.Task>, c: set<string>, param: string, groups: seq<seq<string>>, i: nat, n: string, v: Value)
    requires i <= |groups| && forall j :: 0 <= j < |groups| ==> KnownNames(tasks, groups[j]) && forall s :: s in groups[j] ==> (s in c <==> j == i)
    ensures var all := MessagesTo(tasks, param, Dispatch.TasksIn(Dispatch.Flat(groups), n), v);
      && Cohorts.ValidMessages(tasks, all)
      && Cohorts.Received(tasks, c, all) == if i < |groups| then MessagesTo(tasks, param, Dispatch.TasksIn(groups[i], n), v) else []
    decreases |groups|
  {
    if groups != [] {
      var g, rest := groups[0], groups[1..];
      assert forall j :: 0 <= j < |rest| ==> rest[j] == groups[j + 1];
      var k := if i == 0 then |rest| else i - 1;
      ReceivedPart(tasks, c, param, rest, k, n, v);
      var mine, others := Dispatch.TasksIn(g, n), Dispatch.TasksIn(Dispatch.Flat(rest), n);
      forall s | s in mine ensures s in g { Dispatch.InTasksIn(g, n, s); }
      ReceivedOwn(tasks, c, param, mine, v, i == 0);
      Dispatch.TasksInConcat(g, Dispatch.Flat(rest), n);
      MessagesConcat(tasks, param, mine, others, v);
      Cohorts.ReceivedConcat(tasks, c, MessagesTo(tasks, param, mine, v), MessagesTo(tasks, param, others, v));
    }
  }

  lemma {:induction false} GroupsKnown(ts: seq<Trigger>, vs: seq<string>, groups: seq<seq<string>>, i: nat)
    requires ListCohorts(ts, vs, groups) && i < |groups|
    ensures forall j :: 0 <= j < |groups| ==> KnownNames(AllTasks(ts), groups[j])
    ensures var c := Cohorts.GroupTasks(AllTasks(ts), vs)[i];
      forall j :: 0 <= j < |groups| ==> forall s :: s in groups[j] ==> (s in c <==> j == i)
  {
    var cohorts := Cohorts.GroupTasks(AllTasks(ts), vs);
    FlatIsAll(ts, vs, groups);
    forall j, s | 0 <= j < |groups| && s in groups[j] ensures s in NamesOf(AllTasks(ts)) { InFlat(groups, s); }
    Cohorts.CohortsPartition(AllTasks(ts), vs);
    OwnCohort(cohorts, groups, i);
  }

  lemma {:induction false} OwnCohort(cohorts: seq<set<string>>, groups: seq<seq<string>>, i: nat)
    requires Cohorts.Disjoint(cohorts) && |groups| == |cohorts| && i < |groups|
    requires forall k :: 0 <= k < |groups| ==> forall s :: s in groups[k] <==> s in cohorts[k]
    ensures forall j :: 0 <= j < |groups| ==> forall s :: s in groups[j] ==> (s in cohorts[i] <==> j == i)
  {}

  /** The schedule that hands out one call after the other reaches every cohort as its dispatcher hands
      its messages on. */
  lemma {:induction false} HandedInOrder(ts: seq<Trigger>, vs: seq<string>, groups: seq<seq<string>>, calls: seq<Call>, i: nat)
    requires GoodProgram(ts, groups) && ListCohorts(ts, vs, groups) && ValidCalls(ts, calls) && i < |groups|
    ensures Cohorts.ValidMessages(AllTasks(ts), Handed(ts, groups, calls))
    ensures Cohorts.Received(AllTasks(ts), Cohorts.GroupTasks(AllTasks(ts), vs)[i], Handed(ts, groups, calls)) == Handed(ts, [groups[i]], calls)
    decreases |calls|
  {
    if calls != [] {
      assert calls[0] in calls;
      HandedInOrder(ts, vs, groups, calls[1..], i);
      HandedFirst(ts, vs, groups, calls[0], i);
      var t := ts[calls[0].t];
      var all := ToMessages(AllTasks(ts), t.param, Dispatch.Deliveries(groups, t.name, calls[0].arg));
      Cohorts.ReceivedConcat(AllTasks(ts), Cohorts.GroupTasks(AllTasks(ts), vs)[i], all, Handed(ts, groups, calls[1..]));
    }
  }

  /** Such schedules exist: handing out one call after the other is one. */
  lemma {:induction false} HandedInterleaves(ts: seq<Trigger>, vs: seq<string>, groups: seq<seq<string>>, calls: seq<Call>)
    requires GoodProgram(ts, groups) && ListCohorts(ts, vs, groups) && ValidCalls(ts, calls)
    ensures Cohorts.ValidMessages(AllTasks(ts), Handed(ts, groups, calls)) && Interleaves(ts, vs, groups, calls, Handed(ts, groups, calls))
  {
    if groups == [] { HandedNothing(ts, groups, calls); }
    forall i | 0 <= i < |groups|
      ensures Cohorts.ValidMessages(AllTasks(ts), Handed(ts, groups, calls))
      ensures Cohorts.Received(AllTasks(ts), Cohorts.GroupTasks(AllTasks(ts), vs)[i], Handed(ts, groups, calls)) == Handed(ts, [groups[i]], calls)
    {
      HandedInOrder(ts, vs, groups, calls, i);
    }
    if groups != [] { HandedInOrder(ts, vs, groups, calls, 0); }
  }

  lemma {:induction false} HandedNothing(ts: seq<Trigger>, groups: seq<seq<string>>, calls: seq<Call>)
    requires ValidCalls(ts, calls) && groups == []
    ensures Handed(ts, groups, calls) == []
    decreases |calls|
  {
    if calls != [] {
      assert calls[0] in calls;
      HandedNothing(ts, groups, calls[1..]);
    }
  }

  lemma {:induction false} HandedFirst(ts: seq<Trigger>, vs: seq<string>, groups: seq<seq<string>>, call: Call, i: nat)
    requires GoodProgram(ts, groups) && ListCohorts(ts, vs, groups) && call.t < |ts| && i < |groups|
    ensures var t, c := ts[call.t], Cohorts.GroupTasks(AllTasks(ts), vs)[i];
      var all := ToMessages(AllTasks(ts), t.param, Dispatch.Deliveries(groups, t.name, call.arg));
      && Cohorts.ValidMessages(AllTasks(ts), all)
      && Cohorts.Received(AllTasks(ts), c, all) == ToMessages(AllTasks(ts), t.param, Dispatch.Deliveries([groups[i]], t.name, call.arg))
  {
    var t, c := ts[call.t], Cohorts.GroupTasks(AllTasks(ts), vs)[i];
    GroupsHoldTasks(ts, vs, groups);
    HandedOut(ts, groups, groups, call.t, call.arg);
    HandedOut(ts, groups, [groups[i]], call.t, call.arg);
    assert Dispatch.Flat([groups[i]]) == groups[i] by { assert [groups[i]][1..] == []; }
    GroupsKnown(ts, vs, groups, i);
    ReceivedPart(AllTasks(ts), c, t.param, groups, i, t.name, call.arg);
  }

  /* ---------- One call ---------- */

  function EventsFor(tasks: seq<Cohorts.Task>, names: seq<string>, param: string, v: Value): seq<Event>
    requires KnownNames(tasks, names)
  {
    seq(|names|, i requires 0 <= i < |names| => EventFor(tasks, names[i], param, v))
  }

  function EventFor(tasks: seq<Cohorts.Task>, s: string, param: string, v: Value): Event
    requires s in NamesOf(tasks)
  {
    KnownIndex(tasks, s);
    Event(tasks[IndexOf(tasks, s)].body, param, v)
  }

  lemma {:induction false} EventsOfMessages(tasks: seq<Cohorts.Task>, names: seq<string>, param: string, v: Value)
    requires KnownNames(tasks, names)
    ensures Cohorts.ValidMessages(tasks, MessagesTo(tasks, param, names, v))
    ensures Cohorts.EventsOf(tasks, MessagesTo(tasks, param, names, v)) == EventsFor(tasks, names, param, v)
  {
    MessagesValid(tasks, param, names, v);
    forall i | 0 <= i < |names| ensures IndexOf(tasks, names[i]) < |tasks| { KnownIndex(tasks, names[i]); }
  }

  lemma {:induction false} NoRepeatsCount(l: seq<string>, s: string)
    requires Dispatch.NoRepeats(l)
    ensures multiset(l)[s] == if s in l then 1 else 0
  {
    if s in l { Dispatch.CountNoRepeats(l, s); }
  }

  lemma {:induction false} EventsAround(tasks: seq<Cohorts.Task>, p: seq<string>, s: string, q: seq<string>, param: string, v: Value)
    requires KnownNames(tasks, p + [s] + q) && KnownNames(tasks, p + q)
    ensures s in NamesOf(tasks)
    ensures multiset(EventsFor(tasks, p + [s] + q, param, v)) == multiset(EventsFor(tasks, p + q, param, v)) + multiset{EventFor(tasks, s, param, v)}
  {
    assert s in p + [s] + q;
    var a, b := EventsFor(tasks, p + [s] + q, param, v), EventsFor(tasks, p + q, param, v);
    assert a == a[..|p|] + [EventFor(tasks, s, param, v)] + a[|p| + 1..];
    assert b[..|p|] == a[..|p|] && b[|p|..] == a[|p| + 1..];
    assert b == a[..|p|] + a[|p| + 1..];
    MultisetAround(a[..|p|], EventFor(tasks, s, param, v), a[|p| + 1..]);
  }

  lemma {:induction false} CancelName(a: seq<string>, p: seq<string>, q: seq<string>)
    requires a != [] && multiset(a) == multiset(p + [a[0]] + q)
    ensures multiset(p + q) == multiset(a[1..])
  {
    assert a == [a[0]] + a[1..];
    assert multiset(p + [a[0]] + q) == multiset(p) + multiset{a[0]} + multiset(q);
    assert multiset(a) == multiset{a[0]} + multiset(a[1..]);
    assert multiset(p + q) == multiset(a) - multiset{a[0]};
  }

  /** Reordering the names reorders the events. */
  lemma {:induction false} EventsPermuted(tasks: seq<Cohorts.Task>, a: seq<string>, b: seq<string>, param: string, v: Value)
    requires KnownNames(tasks, a) && KnownNames(tasks, b) && multiset(a) == multiset(b)
    ensures multiset(EventsFor(tasks, a, param, v)) == multiset(EventsFor(tasks, b, param, v))
    decreases |a|
  {
    if a == [] {
      assert |multiset(b)| == 0;
      assert b == [];
    } else {
      var p, q := NameAmong(b, a[0]);
      CancelName(a, p, q);
      assert forall s :: s in p + q ==> s in b;
      EventsPermuted(tasks, a[1..], p + q, param, v);
      EventsMoved(tasks, a, p, q, param, v);
    }
  }

  lemma {:induction false} NameAmong(b: seq<string>, s: string) returns (p: seq<string>, q: seq<string>)
    requires s in multiset(b)
    ensures b == p + [s] + q
  {
    var k :| 0 <= k < |b| && b[k] == s;
    p, q := b[..k], b[k + 1..];
  }

  lemma {:induction false} EventsMoved(tasks: seq<Cohorts.Task>, a: seq<string>, p: seq<string>, q: seq<string>, param: string, v: Value)
    requires a != [] && KnownNames(tasks, a) && KnownNames(tasks, p + [a[0]] + q) && KnownNames(tasks, a[1..]) && KnownNames(tasks, p + q)
    requires multiset(EventsFor(tasks, a[1..], param, v)) == multiset(EventsFor(tasks, p + q, param, v))
    ensures multiset(EventsFor(tasks, a, param, v)) == multiset(EventsFor(tasks, p + [a[0]] + q, param, v))
  {
    assert a == [] + [a[0]] + a[1..] && [] + a[1..] == a[1..];
    EventsAround(tasks, p, a[0], q, param, v);
    EventsAround(tasks, [], a[0], a[1..], param, v);
  }

  lemma {:induction false} AllTasksAt(ts: seq<Trigger>, t: nat, k: nat)
    requires t < |ts| && k < |TasksOfTrigger(ts[t])|
    ensures TasksOfTrigger(ts[t])[k] in AllTasks(ts)
    decreases |ts|
  {
    if t == 0 { assert AllTasks(ts)[k] == TasksOfTrigger(ts[0])[k]; } else { AllTasksAt(ts[1..], t - 1, k); }
  }

  lemma {:induction false} UniqueTask(tasks: seq<Cohorts.Task>, t: Cohorts.Task)
    requires Cohorts.WellLabelled(tasks) && t in tasks
    ensures t.name in NamesOf(tasks) && IndexOf(tasks, t.name) < |tasks| && tasks[IndexOf(tasks, t.name)] == t
  {
    var i :| 0 <= i < |tasks| && tasks[i] == t;
    assert NamesOf(tasks)[i] == t.name;
    KnownIndex(tasks, t.name);
  }

  /** A trigger's own task names stand for the parts of its body. */
  lemma {:induction false} OwnEvents(ts: seq<Trigger>, t: nat, v: Value)
    requires Cohorts.WellLabelled(AllTasks(ts)) && t < |ts|
    ensures KnownNames(AllTasks(ts), NamesOf(TasksOfTrigger(ts[t])))
    ensures EventsFor(AllTasks(ts), NamesOf(TasksOfTrigger(ts[t])), ts[t].param, v) == Events(SplitSeq(ts[t].body), ts[t].param, v)
  {
    var own, bodies := TasksOfTrigger(ts[t]), SplitSeq(ts[t].body);
    forall k | 0 <= k < |own|
      ensures own[k].name in NamesOf(AllTasks(ts)) && EventFor(AllTasks(ts), own[k].name, ts[t].param, v) == Event(bodies[k], ts[t].param, v)
    {
      AllTasksAt(ts, t, k);
      UniqueTask(AllTasks(ts), own[k]);
    }
  }

  lemma {:induction false} DistinctNoRepeats(l: seq<string>)
    requires forall i, j :: 0 <= i < j < |l| ==> l[i] != l[j]
    ensures Dispatch.NoRepeats(l)
    decreases |l|
  {
    if l != [] {
      assert forall j :: 0 <= j < |l[1..]| ==> l[1..][j] == l[j + 1];
      DistinctNoRepeats(l[1..]);
    }
  }

  /** The groups list a trigger's own tasks in some order. */
  lemma {:induction false} OwnPermuted(ts: seq<Trigger>, vs: seq<string>, groups: seq<seq<string>>, t: nat)
    requires GoodProgram(ts, groups) && ListCohorts(ts, vs, groups) && t < |ts|
    ensures multiset(Dispatch.TasksIn(Dispatch.Flat(groups), ts[t].name)) == multiset(NamesOf(TasksOfTrigger(ts[t])))
  {
    var n, all, flat := ts[t].name, NamesOf(AllTasks(ts)), Dispatch.Flat(groups);
    FlatIsAll(ts, vs, groups);
    OwnTasks(ts, n);
    DistinctNoRepeats(all);
    forall s ensures multiset(Dispatch.TasksIn(flat, n))[s] == multiset(Dispatch.TasksIn(all, n))[s] {
      Dispatch.CountTasksIn(flat, n, s);
      Dispatch.CountTasksIn(all, n, s);
      NoRepeatsCount(flat, s);
      NoRepeatsCount(all, s);
    }
  }

  /** Handing one call to all groups in turn does what the undivided trigger does. */
  lemma {:induction false} OneCall(ts: seq<Trigger>, vs: seq<string>, groups: seq<seq<string>>, call: Call, g: Env)
    requires GoodProgram(ts, groups) && ListCohorts(ts, vs, groups) && call.t < |ts|
    ensures var t := ts[call.t];
      var all := ToMessages(AllTasks(ts), t.param, Dispatch.Deliveries(groups, t.name, call.arg));
      && Cohorts.ValidMessages(AllTasks(ts), all)
      && RunEvents(Cohorts.EventsOf(AllTasks(ts), all), g) == RunTrigger(t.body, t.param, call.arg, g)
  {
    var t, tasks := ts[call.t], AllTasks(ts);
    var names := Dispatch.TasksIn(Dispatch.Flat(groups), t.name);
    GroupsHoldTasks(ts, vs, groups);
    HandedOut(ts, groups, groups, call.t, call.arg);
    FlatKnown(ts, vs, groups, t.name);
    EventsOfMessages(tasks, names, t.param, call.arg);
    OwnPermuted(ts, vs, groups, call.t);
    OwnEvents(ts, call.t, call.arg);
    EventsPermuted(tasks, names, NamesOf(TasksOfTrigger(t)), t.param, call.arg);
    AnyOrderEqualsBody(t.body, t.param, call.arg, EventsFor(tasks, names, t.param, call.arg), g);
  }

  lemma {:induction false} FlatKnown(ts: seq<Trigger>, vs: seq<string>, groups: seq<seq<string>>, n: string)
    requires ListCohorts(ts, vs, groups)
    ensures KnownNames(AllTasks(ts), Dispatch.TasksIn(Dispatch.Flat(groups), n))
  {
    FlatIsAll(ts, vs, groups);
    forall s | s in Dispatch.TasksIn(Dispatch.Flat(groups), n) ensures s in NamesOf(AllTasks(ts)) {
      Dispatch.InTasksIn(Dispatch.Flat(groups), n, s);
    }
  }

  /* ---------- The whole pass ---------- */

  lemma {:induction false} EventsConcat(tasks: seq<Cohorts.Task>, a: seq<Cohorts.Message>, b: seq<Cohorts.Message>)
    requires Cohorts.ValidMessages(tasks, a) && Cohorts.ValidMessages(tasks, b)
    ensures Cohorts.ValidMessages(tasks, a + b)
    ensures Cohorts.EventsOf(tasks, a + b) == Cohorts.EventsOf(tasks, a) + Cohorts.EventsOf(tasks, b)
  {}

  lemma {:induction false} HandedRuns(ts: seq<Trigger>, vs: seq<string>, groups: seq<seq<string>>, calls: seq<Call>, g: Env)
    requires GoodProgram(ts, groups) && ListCohorts(ts, vs, groups) && ValidCalls(ts, calls)
    ensures Cohorts.ValidMessages(AllTasks(ts), Handed(ts, groups, calls))
    ensures RunEvents(Cohorts.EventsOf(AllTasks(ts), Handed(ts, groups, calls)), g) == RunCalls(ts, calls, g)
    decreases |calls|
  {
    if calls != [] {
      assert calls[0] in calls;
      var t := ts[calls[0].t];
      var all := ToMessages(AllTasks(ts), t.param, Dispatch.Deliveries(groups, t.name, calls[0].arg));
      OneCall(ts, vs, groups, calls[0], g);
      HandedRuns(ts, vs, groups, calls[1..], g);
      EventsConcat(AllTasks(ts), all, Handed(ts, groups, calls[1..]));
      RunEventsConcat(Cohorts.EventsOf(AllTasks(ts), all), Cohorts.EventsOf(AllTasks(ts), Handed(ts, groups, calls[1..])), g);
      if RunTrigger(t.body, t.param, calls[0].arg, g).Some? {
        HandedRuns(ts, vs, groups, calls[1..], RunTrigger(t.body, t.param, calls[0].arg, g).value);
      }
    }
  }

  /** The parallel program does what the original does. For any messages to the original triggers, and
      any interleaving of the cohorts in which each gets what its dispatcher hands it, the globals end
      up as the undivided triggers leave them, run one message after the other; and some task fails
      exactly when some trigger does. */
  lemma {:induction false} ParallelEqualsSequential(ts: seq<Trigger>, vs: seq<string>, groups: seq<seq<string>>, calls: seq<Call>,
                                 ms: seq<Cohorts.Message>, g: Env)
    requires GoodProgram(ts, groups) && ListCohorts(ts, vs, groups) && ValidCalls(ts, calls)
    requires Interleaves(ts, vs, groups, calls, ms)
    ensures RunEvents(Cohorts.EventsOf(AllTasks(ts), ms), g) == RunCalls(ts, calls, g)
  {
    var tasks := AllTasks(ts);
    var cohorts := Cohorts.GroupTasks(tasks, vs);
    HandedRuns(ts, vs, groups, calls, g);
    forall c | c in cohorts ensures Cohorts.Received(tasks, c, ms) == Cohorts.Received(tasks, c, Handed(ts, groups, calls)) {
      var i :| 0 <= i < |cohorts| && cohorts[i] == c;
      HandedInOrder(ts, vs, groups, calls, i);
    }
    Cohorts.InterleavingsAgree(tasks, vs, ms, Handed(ts, groups, calls), g);
  }
}
