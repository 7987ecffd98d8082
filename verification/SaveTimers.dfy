/**
 The save permission over whole runs. A grant posts its revoke task first and
 queues the task's name afterwards, under the mutex; several grants may be between
 the two. A task that comes due takes away the oldest name in the queue, not its own.
 */
module SaveTimers {
  import opened Types
  import opened TaskNames
  import opened EventHandler
  import opened PermManager

  datatype Posted = Posted(token: TokenId, name: string)

  /** What an observer sees of the save permission. */
  datatype Event =
    | Granted(token: TokenId, name: string)
    | Fired(token: TokenId, name: string)
    | RevokedAll(token: TokenId)

  /** `posted` are the grants whose task is posted and whose name is not queued yet, oldest first. */
  datatype SaveState = SaveState(perm: PermState, posted: seq<Posted>, lastClock: nat, log: seq<Event>)

  datatype Step =
    | Post(token: TokenId, clock: nat)
    | Push(index: nat)
    | Fire(task: nat)
    | RevokeEvery(token: TokenId)
    | PostOther(other: Task)
    | FireOther(task: nat)
    | RemoveOther(name: string)

  function PostedOf(posted: seq<Posted>, t: TokenId): seq<string> {
    if posted == [] then []
    else
      var rest := PostedOf(posted[1..], t);
      if posted[0].token == t then [posted[0].name] + rest else rest
  }

  /**
   When a step can happen. The clock strictly increases and keeps its width; a
   task runs a minute after it was posted, so its grant has queued the name by then.
   */
  predicate Enabled(s: SaveState, step: Step, width: nat) {
    match step
    case Post(_, clock) => s.lastClock < clock && |Decimal(clock)| == width
    case Push(i) => i < |s.posted|
    case Fire(k) =>
      && CanFire(s.perm.tasks, k)
      && s.perm.tasks[k].callback.RevokeSaveCount?
      && forall j :: 0 <= j < |s.posted| ==> s.posted[j].name != s.perm.tasks[k].name
    case RevokeEvery(_) => true
    case PostOther(task) => !task.callback.RevokeSaveCount?
    case FireOther(k) => k < |s.perm.tasks| && !s.perm.tasks[k].callback.RevokeSaveCount?
    case RemoveOther(name) => !StartsWithDigit(name)
  }

  function Exec(s: SaveState, step: Step, width: nat): SaveState
    requires Enabled(s, step, width)
  {
    match step
    case Post(t, clock) =>
      var name := SaveTaskName(t, clock);
      s.(perm := PostSave(s.perm, t, name), posted := s.posted + [Posted(t, name)], lastClock := clock)
    case Push(i) =>
      var g := s.posted[i];
      s.(perm := PushSave(s.perm, g.token, g.name),
         posted := s.posted[..i] + s.posted[i + 1..],
         log := s.log + [Granted(g.token, g.name)])
    case Fire(k) =>
      var task := s.perm.tasks[k];
      var started := s.perm.(tasks := RemoveAt(s.perm.tasks, k));
      s.(perm := RevokeSaveOnce(started, task.callback.token),
         log := s.log + [Fired(task.callback.token, task.name)])
    case RevokeEvery(t) => s.(perm := RevokeSaveAll(s.perm, t), log := s.log + [RevokedAll(t)])
    case PostOther(task) => s.(perm := s.perm.(tasks := s.perm.tasks + [task]))
    case FireOther(k) => s.(perm := s.perm.(tasks := RemoveAt(s.perm.tasks, k)))
    case RemoveOther(name) => s.(perm := s.perm.(tasks := Without(s.perm.tasks, {name})))
  }

  /** A name is queued only when no older grant of its token is still to be queued. */
  predicate InOrder(s: SaveState, step: Step) {
    step.Push? ==>
      && step.index < |s.posted|
      && forall j :: 0 <= j < step.index ==> s.posted[j].token != s.posted[step.index].token
  }

  // The reference: a grant is alive until its own task fires or everything is revoked

  function Alive(log: seq<Event>, t: TokenId, name: string): bool {
    if log == [] then false
    else
      var last := log[|log| - 1];
      if last == Granted(t, name) then true
      else if last == Fired(t, name) || last == RevokedAll(t) then false
      else Alive(log[..|log| - 1], t, name)
  }

  /** Neither the task of the grant at `i` nor a revocation of its token comes after it. */
  predicate Untouched(log: seq<Event>, i: nat)
    requires i < |log| && log[i].Granted?
  {
    forall j :: i < j < |log| ==> log[j] != Fired(log[i].token, log[i].name) && log[j] != RevokedAll(log[i].token)
  }

  lemma AliveAfter(log: seq<Event>, e: Event, t: TokenId, name: string)
    ensures Alive(log + [e], t, name) <==>
            e == Granted(t, name) || (e != Fired(t, name) && e != RevokedAll(t) && Alive(log, t, name))
  {
  }

  lemma {:induction false} AliveMeaning(log: seq<Event>, t: TokenId, name: string)
    ensures Alive(log, t, name) <==> exists i :: 0 <= i < |log| && log[i] == Granted(t, name) && Untouched(log, i)
  {
    if log != [] {
      var n := |log| - 1;
      var before := log[..n];
      AliveMeaning(before, t, name);
      if log[n] == Granted(t, name) {
        assert Untouched(log, n);
      } else if log[n] != Fired(t, name) && log[n] != RevokedAll(t) {
        assert forall j :: 0 <= j < n ==> log[j] == before[j];
        if i :| 0 <= i < n && before[i] == Granted(t, name) && Untouched(before, i) {
          assert Untouched(log, i);
        }
        if i :| 0 <= i < |log| && log[i] == Granted(t, name) && Untouched(log, i) {
          assert Untouched(before, i);
        }
      }
    }
  }

  // The invariant

  predicate Distinct(s: seq<string>) {
    forall i, j :: 0 <= i < j < |s| ==> s[i] != s[j]
  }

  predicate WellNamed(task: Task, lastClock: nat, width: nat) {
    task.callback.RevokeSaveCount? ==>
      && task.delay == DELAY_SAVE_REVOKE
      && StartsWithDigit(task.name)
      && TokenPart(task.name, width) == Decimal(task.callback.token)
      && ClockPart(task.name, width) <= lastClock
  }

  /** The queued names and then the posted ones are the token's pending tasks, in firing order. */
  ghost predicate Lined(s: SaveState, t: TokenId) {
    && DequeOf(s.perm, t) + PostedOf(s.posted, t) == SaveNames(s.perm.tasks, t)
    && Distinct(SaveNames(s.perm.tasks, t))
  }

  ghost predicate Counted(s: SaveState, t: TokenId) {
    && (t in s.perm.counts <==> DequeOf(s.perm, t) != [])
    && CountOf(s.perm, t) == |DequeOf(s.perm, t)|
  }

  ghost predicate Logged(s: SaveState, t: TokenId) {
    forall n :: n in DequeOf(s.perm, t) <==> Alive(s.log, t, n)
  }

  ghost predicate TasksNamed(s: SaveState, width: nat) {
    forall task :: task in s.perm.tasks ==> WellNamed(task, s.lastClock, width)
  }

  ghost predicate SaveInv(s: SaveState, width: nat) {
    && TasksNamed(s, width)
    && forall t: TokenId :: Lined(s, t) && Counted(s, t) && Logged(s, t)
  }

  lemma {:induction false} PostedOfConcat(a: seq<Posted>, b: seq<Posted>, t: TokenId)
    ensures PostedOf(a + b, t) == PostedOf(a, t) + PostedOf(b, t)
  {
    if a == [] {
      assert a + b == b;
    } else {
      PostedOfConcat(a[1..], b, t);
      assert (a + b)[1..] == a[1..] + b;
    }
  }

  lemma {:induction false} PostedOfMember(posted: seq<Posted>, t: TokenId, n: string)
    ensures n in PostedOf(posted, t) <==> Posted(t, n) in posted
  {
    if posted != [] {
      PostedOfMember(posted[1..], t, n);
      assert posted == [posted[0]] + posted[1..];
    }
  }

  /** Taking posted grant `i` away splits the posted names of its token around it. */
  lemma PostedSplit(posted: seq<Posted>, i: nat, t: TokenId)
    requires i < |posted|
    ensures var mine := if posted[i].token == t then [posted[i].name] else [];
            && PostedOf(posted, t) == PostedOf(posted[..i], t) + mine + PostedOf(posted[i + 1..], t)
            && PostedOf(posted[..i] + posted[i + 1..], t) == PostedOf(posted[..i], t) + PostedOf(posted[i + 1..], t)
  {
    assert posted == posted[..i] + ([posted[i]] + posted[i + 1..]);
    PostedOfConcat(posted[..i], [posted[i]] + posted[i + 1..], t);
    PostedOfConcat([posted[i]], posted[i + 1..], t);
    assert PostedOf([posted[i]], t) == if posted[i].token == t then [posted[i].name] else [];
    PostedOfConcat(posted[..i], posted[i + 1..], t);
  }

  lemma {:induction false} OthersNotBefore(posted: seq<Posted>, i: nat, t: TokenId)
    requires i <= |posted| && forall j :: 0 <= j < i ==> posted[j].token != t
    ensures PostedOf(posted[..i], t) == []
  {
    if i > 0 {
      OthersNotBefore(posted[1..], i - 1, t);
      assert posted[..i][1..] == posted[1..][..i - 1];
    }
  }

  // One task taken from the handler

  function MineOf(task: Task, t: TokenId): seq<string> {
    if task.callback == RevokeSaveCount(t) then [task.name] else []
  }

  lemma SaveNamesAround(a: seq<Task>, task: Task, b: seq<Task>, t: TokenId)
    ensures SaveNames(a + ([task] + b), t) == SaveNames(a, t) + (MineOf(task, t) + SaveNames(b, t))
  {
    SaveNamesConcat(a, [task] + b, t);
    assert ([task] + b)[1..] == b;
  }

  lemma TaskSplit(q: seq<Task>, k: nat, t: TokenId)
    requires k < |q|
    ensures SaveNames(q, t) == SaveNames(q[..k], t) + (MineOf(q[k], t) + SaveNames(q[k + 1..], t))
    ensures SaveNames(RemoveAt(q, k), t) == SaveNames(q[..k], t) + SaveNames(q[k + 1..], t)
  {
    SaveNamesAround(q[..k], q[k], q[k + 1..], t);
    assert q == q[..k] + ([q[k]] + q[k + 1..]);
    SaveNamesConcat(q[..k], q[k + 1..], t);
  }

  lemma {:induction false} NoSaveTask(q: seq<Task>, t: TokenId)
    requires forall j :: 0 <= j < |q| ==> !q[j].callback.RevokeSaveCount?
    ensures SaveNames(q, t) == []
  {
    if q != [] {
      NoSaveTask(q[1..], t);
    }
  }

  lemma TailWithoutHead(s: seq<string>)
    requires Distinct(s) && s != []
    ensures Distinct(s[1..]) && s[0] !in s[1..]
  {
  }

  /** Save tasks of different tokens never share a name. */
  lemma NamesOfOthers(s: SaveState, t: TokenId, u: TokenId, n: string, width: nat)
    requires TasksNamed(s, width) && n in SaveNames(s.perm.tasks, t) && n in SaveNames(s.perm.tasks, u)
    ensures t == u
  {
    var i := TaskOfSaveName(s.perm.tasks, t, n);
    var j := TaskOfSaveName(s.perm.tasks, u, n);
    assert s.perm.tasks[i] in s.perm.tasks && s.perm.tasks[j] in s.perm.tasks;
    DecimalInjective(t, u);
  }

  lemma {:induction false} DistinctAfterFilter(s: seq<string>, gone: set<string>)
    requires Distinct(s)
    ensures Distinct(Names(s, gone)) && forall n :: n in Names(s, gone) <==> n in s && n !in gone
  {
    if s != [] {
      assert forall i, j :: 0 <= i < j < |s[1..]| ==> s[1..][i] == s[i + 1] && s[1..][j] == s[j + 1];
      DistinctAfterFilter(s[1..], gone);
      assert s == [s[0]] + s[1..];
      assert s[0] !in s[1..];
    }
  }

  // Every step keeps the invariant

  lemma PostKeepsLine(s: SaveState, t: TokenId, clock: nat, width: nat, u: TokenId)
    requires TasksNamed(s, width) && Lined(s, u) && Enabled(s, Post(t, clock), width)
    ensures Lined(Exec(s, Post(t, clock), width), u)
  {
    var name := SaveTaskName(t, clock);
    var task := Task(name, DELAY_SAVE_REVOKE, RevokeSaveCount(t));
    SaveNamesConcat(s.perm.tasks, [task], u);
    PostedOfConcat(s.posted, [Posted(t, name)], u);
    var more := SaveNames([task], u);
    assert more == PostedOf([Posted(t, name)], u) == if t == u then [name] else [];
    var line := SaveNames(s.perm.tasks, u);
    assert Distinct(line + more) by {
      if t == u {
        forall i | 0 <= i < |line| ensures line[i] != name {
          var k := TaskOfSaveName(s.perm.tasks, t, line[i]);
          assert s.perm.tasks[k] in s.perm.tasks;
          PartsOfSaveTaskName(t, clock);
        }
      }
    }
  }

  lemma PostKeeps(s: SaveState, t: TokenId, clock: nat, width: nat)
    requires SaveInv(s, width) && Enabled(s, Post(t, clock), width)
    ensures SaveInv(Exec(s, Post(t, clock), width), width)
  {
    PartsOfSaveTaskName(t, clock);
    NamesApart(t, clock, t);
    forall u: TokenId ensures Lined(Exec(s, Post(t, clock), width), u) {
      PostKeepsLine(s, t, clock, width, u);
    }
    forall u: TokenId ensures Counted(Exec(s, Post(t, clock), width), u) && Logged(Exec(s, Post(t, clock), width), u) {
      assert Counted(s, u) && Logged(s, u);
    }
  }

  lemma PushLined(s: SaveState, i: nat, width: nat, u: TokenId)
    requires Lined(s, u) && Enabled(s, Push(i), width) && InOrder(s, Push(i))
    ensures Lined(Exec(s, Push(i), width), u)
  {
    var s', g, queue := Exec(s, Push(i), width), s.posted[i], DequeOf(s.perm, u);
    var before, after := PostedOf(s.posted[..i], u), PostedOf(s.posted[i + 1..], u);
    PostedSplit(s.posted, i, u);
    if u == g.token {
      OthersNotBefore(s.posted, i, u);
      assert DequeOf(s'.perm, u) == queue + [g.name] && PostedOf(s'.posted, u) == after;
      Regroup(queue, [g.name], after);
    } else {
      assert DequeOf(s'.perm, u) == queue && PostedOf(s'.posted, u) == before + after;
      assert PostedOf(s.posted, u) == before + after;
    }
  }

  lemma Regroup<T>(a: seq<T>, b: seq<T>, c: seq<T>)
    ensures (a + b) + c == a + (([] + b) + c)
  {
  }

  lemma PushLogged(s: SaveState, i: nat, width: nat, u: TokenId)
    requires Logged(s, u) && Enabled(s, Push(i), width)
    ensures Logged(Exec(s, Push(i), width), u)
  {
    var s', g := Exec(s, Push(i), width), s.posted[i];
    forall n ensures n in DequeOf(s'.perm, u) <==> Alive(s'.log, u, n) {
      AliveAfter(s.log, Granted(g.token, g.name), u, n);
    }
  }

  lemma PushKeeps(s: SaveState, i: nat, width: nat)
    requires SaveInv(s, width) && Enabled(s, Push(i), width) && InOrder(s, Push(i))
    ensures SaveInv(Exec(s, Push(i), width), width)
  {
    var s' := Exec(s, Push(i), width);
    forall u: TokenId ensures Lined(s', u) && Counted(s', u) && Logged(s', u) {
      assert Lined(s, u) && Counted(s, u) && Logged(s, u);
      PushLined(s, i, width, u);
      PushLogged(s, i, width, u);
    }
  }

  /** The task that fires is the first in its token's queue. */
  lemma FiredIsFirst(s: SaveState, k: nat, width: nat)
    requires SaveInv(s, width) && Enabled(s, Fire(k), width)
    ensures var task := s.perm.tasks[k]; var t := task.callback.token;
            && DequeOf(s.perm, t) != [] && DequeOf(s.perm, t)[0] == task.name
            && SaveNames(s.perm.tasks, t) == [task.name] + SaveNames(RemoveAt(s.perm.tasks, k), t)
  {
    var q := s.perm.tasks;
    var t, name := q[k].callback.token, q[k].name;
    assert q[k] in q;
    TaskSplit(q, k, t);
    forall j | 0 <= j < k ensures !q[..k][j].callback.RevokeSaveCount? {
      assert q[j] in q;
    }
    NoSaveTask(q[..k], t);
    assert Lined(s, t);
    var queue, waiting := DequeOf(s.perm, t), PostedOf(s.posted, t);
    assert (queue + waiting)[0] == name;
    PostedOfMember(s.posted, t, name);
    assert Posted(t, name) !in s.posted;
    assert name !in waiting;
  }

  lemma FireKeepsLine(s: SaveState, k: nat, width: nat, u: TokenId)
    requires SaveInv(s, width) && Enabled(s, Fire(k), width)
    ensures Lined(Exec(s, Fire(k), width), u)
  {
    var q := s.perm.tasks;
    var t, name, left := q[k].callback.token, q[k].name, RemoveAt(q, k);
    FiredIsFirst(s, k, width);
    assert Counted(s, t) && Lined(s, u);
    LineAfterFire(s, k, width, u);
    SaveNamesWithout(left, {name}, u);
    NamesKept(SaveNames(left, u), {name});
    var s' := Exec(s, Fire(k), width);
    assert s'.perm.tasks == Without(left, {name}) && s'.posted == s.posted;
    if u == t {
      HeadOfLine(DequeOf(s.perm, t), PostedOf(s.posted, t), name, SaveNames(left, t));
    }
  }

  lemma HeadOfLine(queue: seq<string>, waiting: seq<string>, name: string, rest: seq<string>)
    requires queue != [] && queue + waiting == [name] + rest
    ensures queue[1..] + waiting == rest
  {
    assert (queue + waiting)[1..] == queue[1..] + waiting;
    assert ([name] + rest)[1..] == rest;
  }

  lemma LineAfterFire(s: SaveState, k: nat, width: nat, u: TokenId)
    requires SaveInv(s, width) && Enabled(s, Fire(k), width)
    ensures var q := s.perm.tasks; var rest := SaveNames(RemoveAt(q, k), u);
            && Distinct(rest) && q[k].name !in rest
            && (u != q[k].callback.token ==> rest == SaveNames(q, u))
  {
    var q := s.perm.tasks;
    var t, name := q[k].callback.token, q[k].name;
    FiredIsFirst(s, k, width);
    assert Lined(s, u) && Lined(s, t);
    var line, rest := SaveNames(q, u), SaveNames(RemoveAt(q, k), u);
    if u == t {
      assert line[1..] == rest;
      TailWithoutHead(line);
    } else {
      TaskSplit(q, k, u);
      assert line == rest;
      assert SaveNames(q, t)[0] in SaveNames(q, t);
      if name in rest {
        NamesOfOthers(s, t, u, name, width);
      }
    }
  }

  lemma FireKeeps(s: SaveState, k: nat, width: nat)
    requires SaveInv(s, width) && Enabled(s, Fire(k), width)
    ensures SaveInv(Exec(s, Fire(k), width), width)
  {
    var s' := Exec(s, Fire(k), width);
    var t, name := s.perm.tasks[k].callback.token, s.perm.tasks[k].name;
    FiredIsFirst(s, k, width);
    assert Counted(s, t) && Lined(s, t);
    forall u: TokenId ensures Lined(s', u) {
      FireKeepsLine(s, k, width, u);
    }
    forall u: TokenId ensures Counted(s', u) && Logged(s', u) {
      assert Counted(s, u) && Logged(s, u);
      if u == t {
        var queue := DequeOf(s.perm, t);
        assert queue == [name] + queue[1..];
        assert SaveNames(s.perm.tasks, t) == [name] + (queue[1..] + PostedOf(s.posted, t));
        TailWithoutHead(SaveNames(s.perm.tasks, t));
      }
      forall n ensures n in DequeOf(s'.perm, u) <==> Alive(s'.log, u, n) {
        AliveAfter(s.log, Fired(t, name), u, n);
      }
    }
    var left := RemoveAt(s.perm.tasks, k);
    forall task | task in s'.perm.tasks ensures WellNamed(task, s'.lastClock, width) {
      WithoutMember(left, {name}, task);
      assert task in s.perm.tasks;
    }
  }

  /** Removing the first part of a list without repetitions leaves the rest. */
  lemma FirstPartGone(queue: seq<string>, waiting: seq<string>)
    requires Distinct(queue + waiting)
    ensures Names(queue + waiting, ElementsOf(queue)) == waiting
  {
    var gone := ElementsOf(queue);
    NamesConcat(queue, waiting, gone);
    NamesGone(queue, gone);
    var line := queue + waiting;
    forall n | n in waiting ensures n !in gone {
      var i :| 0 <= i < |waiting| && waiting[i] == n;
      assert line[|queue| + i] == n;
      assert forall j :: 0 <= j < |queue| ==> line[j] == queue[j];
    }
    NamesKept(waiting, gone);
  }

  lemma RevokeEveryKeepsLine(s: SaveState, t: TokenId, width: nat, u: TokenId)
    requires SaveInv(s, width)
    ensures Lined(Exec(s, RevokeEvery(t), width), u)
  {
    var q, queue := s.perm.tasks, DequeOf(s.perm, t);
    var gone := ElementsOf(queue);
    assert Lined(s, u) && Lined(s, t);
    SaveNamesWithout(q, gone, u);
    DistinctAfterFilter(SaveNames(q, u), gone);
    if u == t {
      FirstPartGone(queue, PostedOf(s.posted, t));
      assert [] + PostedOf(s.posted, t) == PostedOf(s.posted, t);
    } else {
      forall n | n in SaveNames(q, u) ensures n !in gone {
        if n in queue {
          assert n in queue + PostedOf(s.posted, t);
          NamesOfOthers(s, t, u, n, width);
        }
      }
      NamesKept(SaveNames(q, u), gone);
    }
  }

  lemma RevokeEveryKeeps(s: SaveState, t: TokenId, width: nat)
    requires SaveInv(s, width)
    ensures SaveInv(Exec(s, RevokeEvery(t), width), width)
  {
    var s' := Exec(s, RevokeEvery(t), width);
    forall u: TokenId ensures Lined(s', u) {
      RevokeEveryKeepsLine(s, t, width, u);
    }
    forall u: TokenId ensures Counted(s', u) && Logged(s', u) {
      assert Counted(s, u) && Logged(s, u);
      forall n ensures n in DequeOf(s'.perm, u) <==> Alive(s'.log, u, n) {
        AliveAfter(s.log, RevokedAll(t), u, n);
      }
    }
    forall task | task in s'.perm.tasks ensures WellNamed(task, s'.lastClock, width) {
      WithoutMember(s.perm.tasks, ElementsOf(DequeOf(s.perm, t)), task);
    }
  }

  /** Tasks of other kinds can be posted, run and removed by name without touching the save tasks. */
  lemma OtherTasksKeepLine(s: SaveState, step: Step, width: nat, u: TokenId)
    requires SaveInv(s, width) && Enabled(s, step, width)
    requires step.PostOther? || step.FireOther? || step.RemoveOther?
    ensures Lined(Exec(s, step, width), u)
  {
    var q := s.perm.tasks;
    assert Lined(s, u);
    match step {
      case PostOther(task) =>
        SaveNamesConcat(q, [task], u);
        assert SaveNames([task], u) == [];
      case FireOther(k) =>
        TaskSplit(q, k, u);
      case RemoveOther(name) =>
        SaveNamesWithout(q, {name}, u);
        forall n | n in SaveNames(q, u) ensures n != name {
          var i := TaskOfSaveName(q, u, n);
          assert q[i] in q;
        }
        NamesKept(SaveNames(q, u), {name});
    }
  }

  lemma OtherTasksKeep(s: SaveState, step: Step, width: nat)
    requires SaveInv(s, width) && Enabled(s, step, width)
    requires step.PostOther? || step.FireOther? || step.RemoveOther?
    ensures SaveInv(Exec(s, step, width), width)
  {
    var s' := Exec(s, step, width);
    forall u: TokenId ensures Lined(s', u) {
      OtherTasksKeepLine(s, step, width, u);
    }
    forall task | task in s'.perm.tasks ensures WellNamed(task, s'.lastClock, width) {
      if step.RemoveOther? {
        WithoutMember(s.perm.tasks, {step.name}, task);
      }
    }
    forall u: TokenId ensures Counted(s', u) && Logged(s', u) {
      assert Counted(s, u) && Logged(s, u);
    }
  }

  lemma StepKeeps(s: SaveState, step: Step, width: nat)
    requires SaveInv(s, width) && Enabled(s, step, width) && InOrder(s, step)
    ensures SaveInv(Exec(s, step, width), width)
  {
    match step {
      case Post(t, clock) => PostKeeps(s, t, clock, width);
      case Push(i) => PushKeeps(s, i, width);
      case Fire(k) => FireKeeps(s, k, width);
      case RevokeEvery(t) => RevokeEveryKeeps(s, t, width);
      case _ => OtherTasksKeep(s, step, width);
    }
  }

  /** Queueing a name keeps the queue in step with the pending tasks exactly when its grant is the oldest one posted. */
  lemma PushInStepIffOldest(s: SaveState, i: nat, width: nat)
    requires SaveInv(s, width) && i < |s.posted|
    ensures SaveInv(Exec(s, Push(i), width), width) <==> InOrder(s, Push(i))
  {
    if InOrder(s, Push(i)) {
      PushKeeps(s, i, width);
    } else {
      var t, name := s.posted[i].token, s.posted[i].name;
      var s' := Exec(s, Push(i), width);
      PostedSplit(s.posted, i, t);
      var j :| 0 <= j < i && s.posted[j].token == t;
      var before := PostedOf(s.posted[..i], t);
      assert s.posted[..i][j] == Posted(t, s.posted[j].name);
      PostedOfMember(s.posted[..i], t, s.posted[j].name);
      assert Lined(s, t);
      var queue, pending := DequeOf(s.perm, t), SaveNames(s.perm.tasks, t);
      assert pending[|queue|] == before[0] && pending[|queue| + |before|] == name;
      assert (DequeOf(s'.perm, t) + PostedOf(s'.posted, t))[|queue|] == name;
      assert !Lined(s', t);
    }
  }

  // Whole runs

  ghost predicate StepAt(states: seq<SaveState>, steps: seq<Step>, width: nat, i: nat) {
    && i < |steps| && i + 1 < |states|
    && Enabled(states[i], steps[i], width) && states[i + 1] == Exec(states[i], steps[i], width)
  }

  ghost predicate IsRun(states: seq<SaveState>, steps: seq<Step>, width: nat) {
    && |states| == |steps| + 1
    && states[0].perm.counts == map[] && states[0].perm.deques == map[] && states[0].perm.tasks == []
    && states[0].posted == [] && states[0].log == []
    && forall i :: 0 <= i < |steps| ==> StepAt(states, steps, width, i)
  }

  lemma {:induction false} RunKeeps(states: seq<SaveState>, steps: seq<Step>, width: nat, n: nat)
    requires IsRun(states, steps, width) && n <= |steps|
    requires forall i :: 0 <= i < n ==> InOrder(states[i], steps[i])
    ensures SaveInv(states[n], width)
  {
    if n > 0 {
      RunKeeps(states, steps, width, n - 1);
      assert StepAt(states, steps, width, n - 1);
      StepKeeps(states[n - 1], steps[n - 1], width);
    }
  }

  /**
   In every run the queues stay in step with the pending tasks and the counts exactly as
   long as every grant is queued before the younger ones of its token.
   */
  lemma InStepIffInOrder(states: seq<SaveState>, steps: seq<Step>, width: nat, n: nat)
    requires IsRun(states, steps, width) && n <= |steps|
    ensures (forall i :: 0 <= i <= n ==> SaveInv(states[i], width))
       <==> (forall i :: 0 <= i < n ==> InOrder(states[i], steps[i]))
  {
    if forall i :: 0 <= i <= n ==> SaveInv(states[i], width) {
      forall i | 0 <= i < n ensures InOrder(states[i], steps[i]) {
        assert StepAt(states, steps, width, i) && SaveInv(states[i], width) && SaveInv(states[i + 1], width);
        if steps[i].Push? {
          PushInStepIffOldest(states[i], steps[i].index, width);
        }
      }
    }
    if forall i :: 0 <= i < n ==> InOrder(states[i], steps[i]) {
      forall i | 0 <= i <= n ensures SaveInv(states[i], width) {
        RunKeeps(states, steps, width, i);
      }
    }
  }

  /**
   In every state of every run in which each token's grants are queued in the
   order they were posted: the save permission verifies exactly when some grant has
   been neither fired nor revoked since, and a token with no grant under way has
   exactly one pending revoke task per count, in queue order.
   */
  lemma SavePermissionLastsAsLongAsAGrant(states: seq<SaveState>, steps: seq<Step>, width: nat, n: nat, t: TokenId)
    requires IsRun(states, steps, width) && n <= |steps|
    requires forall i :: 0 <= i < n ==> InOrder(states[i], steps[i])
    ensures var s := states[n];
            && (VerifySave(s.perm, t) <==>
                 exists i :: 0 <= i < |s.log| && s.log[i].Granted? && s.log[i].token == t && Untouched(s.log, i))
            && CountOf(s.perm, t) == |DequeOf(s.perm, t)|
            && (PostedOf(s.posted, t) == [] ==> DequeOf(s.perm, t) == SaveNames(s.perm.tasks, t))
  {
    RunKeeps(states, steps, width, n);
    var s := states[n];
    assert Lined(s, t) && Counted(s, t) && Logged(s, t);
    var queue := DequeOf(s.perm, t);
    if VerifySave(s.perm, t) {
      assert queue[0] in queue && Alive(s.log, t, queue[0]);
      AliveMeaning(s.log, t, queue[0]);
    }
    if i :| 0 <= i < |s.log| && s.log[i].Granted? && s.log[i].token == t && Untouched(s.log, i) {
      AliveMeaning(s.log, t, s.log[i].name);
      assert s.log[i] == Granted(t, s.log[i].name);
      assert s.log[i].name in queue;
    }
    if PostedOf(s.posted, t) == [] {
      assert queue + [] == queue;
    }
  }

  /**
   Two grants of one token that overlap and are queued in the wrong order: the
   first task to come due removes the second task. The count then stays at one with
   no task pending, so the save permission does not end by itself.
   */
  lemma OverlappingGrantsNeverExpire(t: TokenId)
    ensures var s0 := SaveState(PermState(map[], map[], map[], {}, []), [], 0, []);
            var a, b := SaveTaskName(t, 1), SaveTaskName(t, 2);
            && Enabled(s0, Post(t, 1), 1)
            && var s1 := Exec(s0, Post(t, 1), 1);
            && Enabled(s1, Post(t, 2), 1)
            && var s2 := Exec(s1, Post(t, 2), 1);
            && Enabled(s2, Push(1), 1)
            && var s3 := Exec(s2, Push(1), 1);
            && Enabled(s3, Push(0), 1)
            && var s4 := Exec(s3, Push(0), 1);
            && Enabled(s4, Fire(0), 1)
            && var s5 := Exec(s4, Fire(0), 1);
            && VerifySave(s5.perm, t) && s5.perm.tasks == [] && s5.posted == []
  {
    var s0 := SaveState(PermState(map[], map[], map[], {}, []), [], 0, []);
    var a, b := SaveTaskName(t, 1), SaveTaskName(t, 2);
    assert |Decimal(1)| == 1 && |Decimal(2)| == 1;
    SaveTaskNameInjective(t, 1, t, 2);
    var s2 := Exec(Exec(s0, Post(t, 1), 1), Post(t, 2), 1);
    var ta, tb := Task(a, DELAY_SAVE_REVOKE, RevokeSaveCount(t)), Task(b, DELAY_SAVE_REVOKE, RevokeSaveCount(t));
    assert s2.perm.tasks == [ta, tb] && s2.posted == [Posted(t, a), Posted(t, b)];
    var s3 := Exec(s2, Push(1), 1);
    assert s3.posted == [Posted(t, a)] && DequeOf(s3.perm, t) == [b];
    var s4 := Exec(s3, Push(0), 1);
    assert s4.posted == [] && DequeOf(s4.perm, t) == [b, a] && s4.perm.counts[t] == 2;
    assert RemoveAt(s4.perm.tasks, 0) == [tb];
    assert Without([tb], {b}) == [] by { assert [tb][1..] == []; }
  }
}
