/**
 The save permission over runs of the whole service: each run of the service is, for
 the counts, the queues and the pending tasks, a run of the save timers.
 */
module ServiceSave {
  import opened Types
  import opened TaskNames
  import opened EventHandler
  import opened PermManager
  import opened Entity
  import opened FirstUseDialog
  import opened Registry
  import opened Service
  import opened ServiceTasks
  import opened ServiceClicks
  import T = SaveTimers

  /** The grant of an accepted click whose task is posted and whose name is not queued yet. */
  function ClickFlight(s: State): seq<T.Posted> {
    if s.lock.Granting? && s.lock.scId in s.ents && s.lock.pc.NeedPush? then
      [T.Posted(s.ents[s.lock.scId].token, s.lock.pc.name)]
    else []
  }

  function DialogFlight(s: State): seq<T.Posted> {
    if s.mapLock.DialogGranting? && s.mapLock.scId in s.ents && s.mapLock.pc.NeedPush? then
      [T.Posted(s.ents[s.mapLock.scId].token, s.mapLock.pc.name)]
    else []
  }

  /** The save timers are in the state the service's are in. */
  ghost predicate Tracks(s: State, v: T.SaveState) {
    && v.perm.counts == s.perm.counts && v.perm.deques == s.perm.deques && v.perm.tasks == s.perm.tasks
    && (v.posted == ClickFlight(s) + DialogFlight(s) || v.posted == DialogFlight(s) + ClickFlight(s))
  }

  /** A click's grant and a dialog's grant of one token are not both between posting and queueing. */
  predicate NoOverlap(s: State) {
    ClickFlight(s) == [] || DialogFlight(s) == [] || ClickFlight(s)[0].token != DialogFlight(s)[0].token
  }

  /** The step posts a save task, and this is the clock it reads. */
  function PostClock(s: State, l: Label): Option<nat> {
    if l.ClickGrant? && s.lock.Granting? && s.lock.scId in s.ents then
      var e := s.ents[s.lock.scId];
      if s.lock.pc.Begin? && e.token != INVALID_TOKEN && e.comp.ty == Save && !l.answer.dlpSandbox
      then Some(l.answer.clock) else None
    else if l.DialogGrant? && s.mapLock.DialogGranting? && s.mapLock.scId in s.ents then
      var e := s.ents[s.mapLock.scId];
      if s.mapLock.pc.Begin? && e.token != INVALID_TOKEN && e.comp.ty == Save && !l.answer.dlpSandbox
      then Some(l.answer.clock) else None
    else None
  }

  predicate ClockFine(last: nat, s: State, l: Label, width: nat) {
    PostClock(s, l).Some? ==> last < PostClock(s, l).value && |Decimal(PostClock(s, l).value)| == width
  }

  function LastClock(states: seq<State>, labels: seq<Label>, n: nat): nat
    requires n <= |labels| && n <= |states|
  {
    if n == 0 then 0
    else
      var clock := PostClock(states[n - 1], labels[n - 1]);
      if clock.Some? then clock.value else LastClock(states, labels, n - 1)
  }

  // Runs of the timers

  datatype Timers = Timers(states: seq<T.SaveState>, steps: seq<T.Step>)

  ghost predicate TimerRun(v: Timers, width: nat) {
    T.IsRun(v.states, v.steps, width)
  }

  function Now(v: Timers): T.SaveState
    requires |v.states| > 0
  {
    v.states[|v.states| - 1]
  }

  ghost predicate AllInOrder(v: Timers) {
    |v.steps| <= |v.states| && forall i :: 0 <= i < |v.steps| ==> T.InOrder(v.states[i], v.steps[i])
  }

  lemma OneMore(v: Timers, step: T.Step, width: nat) returns (v': Timers)
    requires TimerRun(v, width) && T.Enabled(Now(v), step, width)
    ensures TimerRun(v', width) && Now(v') == T.Exec(Now(v), step, width)
    ensures AllInOrder(v) && T.InOrder(Now(v), step) ==> AllInOrder(v')
  {
    v' := Timers(v.states + [T.Exec(Now(v), step, width)], v.steps + [step]);
    forall i | 0 <= i < |v'.steps| ensures T.StepAt(v'.states, v'.steps, width, i) {
      if i < |v.steps| {
        assert T.StepAt(v.states, v.steps, width, i);
      }
    }
  }

  // One step of the service

  lemma FlightKept(s: State, l: Label, s': State)
    requires Wf(s) && Step(s, l, s') && !l.ClickGrant? && !l.DialogGrant?
    ensures ClickFlight(s') == ClickFlight(s) && DialogFlight(s') == DialogFlight(s)
  {
    LocksMove(s, l);
    if s.lock.Granting? {
      GrantGoesOn(s, l, s');
    }
    if s.mapLock.DialogGranting? {
      DialogGrantGoesOn(s, l, s');
    }
  }

  lemma GrantGoesOn(s: State, l: Label, s': State)
    requires Wf(s) && Step(s, l, s') && !l.ClickGrant? && s.lock.Granting?
    ensures s'.lock == s.lock && SameOwnerOf(s, s', s.lock.scId)
  {
    HeldLockKeepsReports(s, l, s', s.lock.scId);
    if IsCall(l) {
      CallFrame(s, l);
    } else if !IsDialogStep(l) && !IsProcessEvent(l) {
      OtherFrame(s, l);
    }
  }

  lemma DialogGrantGoesOn(s: State, l: Label, s': State)
    requires Wf(s) && Step(s, l, s') && !l.DialogGrant? && s.mapLock.DialogGranting?
    ensures s'.mapLock == s.mapLock && SameOwnerOf(s, s', s.mapLock.scId)
  {
    WaitersKeepOwner(s, l, s', s.mapLock.scId);
    if IsCall(l) {
      CallFrame(s, l);
    } else if IsProcessEvent(l) {
      ProcessFrame(s, l);
    } else if !IsDialogStep(l) {
      OtherFrame(s, l);
    }
  }

  /** The timers have gone along with a step of the service. */
  ghost predicate Follows(s: State, l: Label, s': State, v: Timers, v': Timers, width: nat) {
    && TimerRun(v, width) && TimerRun(v', width) && Tracks(s', Now(v'))
    && Now(v').lastClock == (if PostClock(s, l).Some? then PostClock(s, l).value else Now(v).lastClock)
    && (NoOverlap(s) && AllInOrder(v) ==> AllInOrder(v'))
  }

  predicate SameTimers(p: PermState, p': PermState) {
    p'.counts == p.counts && p'.deques == p.deques && p'.tasks == p.tasks
  }

  lemma QuietTimers(v: T.SaveState, step: T.Step, width: nat)
    requires T.Enabled(v, step, width) && !step.Post? && !step.Push?
    ensures var v' := T.Exec(v, step, width); v'.posted == v.posted && v'.lastClock == v.lastClock
    ensures T.InOrder(v, step)
  {
  }

  /** A step that starts or ends no grant, and the timers' step for it. */
  lemma OtherFollows(s: State, l: Label, s': State, v: Timers, step: T.Step, width: nat) returns (v': Timers)
    requires Wf(s) && Step(s, l, s') && !l.ClickGrant? && !l.DialogGrant?
    requires TimerRun(v, width) && Tracks(s, Now(v))
    requires T.Enabled(Now(v), step, width) && !step.Post? && !step.Push?
    requires SameTimers(T.Exec(Now(v), step, width).perm, s'.perm)
    ensures Follows(s, l, s', v, v', width)
  {
    FlightKept(s, l, s');
    QuietTimers(Now(v), step, width);
    v' := OneMore(v, step, width);
    SameFlight(s, l, s', v, v', width);
  }

  lemma SameFlight(s: State, l: Label, s': State, v: Timers, v': Timers, width: nat)
    requires TimerRun(v, width) && TimerRun(v', width) && PostClock(s, l).None? && Tracks(s, Now(v))
    requires ClickFlight(s') == ClickFlight(s) && DialogFlight(s') == DialogFlight(s)
    requires Now(v').posted == Now(v).posted && Now(v').lastClock == Now(v).lastClock
    requires SameTimers(Now(v').perm, s'.perm) && (AllInOrder(v) ==> AllInOrder(v'))
    ensures Follows(s, l, s', v, v', width)
  {
  }

  lemma NothingFollows(s: State, l: Label, s': State, v: Timers, width: nat)
    requires Wf(s) && Step(s, l, s') && !l.ClickGrant? && !l.DialogGrant? && SameTimers(s.perm, s'.perm)
    requires TimerRun(v, width) && Tracks(s, Now(v))
    ensures Follows(s, l, s', v, v, width)
  {
    FlightKept(s, l, s');
  }

  lemma RemovalFollows(s: State, l: Label, s': State, v: Timers, name: string, width: nat) returns (v': Timers)
    requires Wf(s) && Step(s, l, s') && !l.ClickGrant? && !l.DialogGrant?
    requires TimerRun(v, width) && Tracks(s, Now(v)) && !StartsWithDigit(name)
    requires SameTimers(s.perm.(tasks := Without(s.perm.tasks, {name})), s'.perm)
    ensures Follows(s, l, s', v, v', width)
  {
    v' := OtherFollows(s, l, s', v, T.RemoveOther(name), width);
  }

  lemma PostingFollows(s: State, l: Label, s': State, v: Timers, task: Task, width: nat) returns (v': Timers)
    requires Wf(s) && Step(s, l, s') && !l.ClickGrant? && !l.DialogGrant?
    requires TimerRun(v, width) && Tracks(s, Now(v)) && !task.callback.RevokeSaveCount?
    requires SameTimers(s.perm.(tasks := s.perm.tasks + [task]), s'.perm)
    ensures Follows(s, l, s', v, v', width)
  {
    v' := OtherFollows(s, l, s', v, T.PostOther(task), width);
  }

  lemma CallFollows(s: State, l: Label, s': State, v: Timers, width: nat) returns (v': Timers)
    requires Wf(s) && Step(s, l, s') && IsCall(l) && TimerRun(v, width) && Tracks(s, Now(v))
    ensures Follows(s, l, s', v, v', width)
  {
    ShapesApart(0, 0);
    if s'.perm == s.perm {
      v' := v;
      NothingFollows(s, l, s', v, width);
    } else if l.RegisterAdd? {
      v' := RemovalFollows(s, l, s', v, DELAY_EXIT_NAME, width);
    } else {
      v' := PostingFollows(s, l, s', v, EXIT_TASK, width);
    }
  }

  lemma ProcessFollows(s: State, l: Label, s': State, v: Timers, width: nat) returns (v': Timers)
    requires Wf(s) && Step(s, l, s') && IsProcessEvent(l) && !l.DiedStep? && !l.AppMgrStep?
    requires TimerRun(v, width) && Tracks(s, Now(v))
    ensures Follows(s, l, s', v, v', width)
  {
    if s'.perm == s.perm {
      v' := v;
      NothingFollows(s, l, s', v, width);
    } else {
      var t := s.procs[l.pid].token;
      ShapesApart(t, t);
      if l.Foreground? {
        v' := RemovalFollows(s, l, s', v, RevokeAllName(t), width);
      } else {
        v' := PostingFollows(s, l, s', v, Task(RevokeAllName(t), DELAY_REVOKE, RevokeAll(t)), width);
      }
    }
  }

  /** The last section of a death takes two steps of the timers: everything saved is revoked, and the exit is posted. */
  lemma EraseFollows(s: State, s': State, v: Timers, width: nat) returns (v': Timers)
    requires Wf(s) && Step(s, DiedStep, s') && s.lock.phase == DropSave && TimerRun(v, width) && Tracks(s, Now(v))
    ensures Follows(s, DiedStep, s', v, v', width)
  {
    var t := s.procs[s.lock.pid].token;
    FlightKept(s, DiedStep, s');
    var mid := OneMore(v, T.RevokeEvery(t), width);
    v' := OneMore(mid, T.PostOther(EXIT_TASK), width);
  }

  lemma CancelFollows(s: State, s': State, v: Timers, width: nat) returns (v': Timers)
    requires Wf(s) && Step(s, DiedStep, s') && s.lock.phase == CancelTask && TimerRun(v, width) && Tracks(s, Now(v))
    ensures Follows(s, DiedStep, s', v, v', width)
  {
    var t := s.procs[s.lock.pid].token;
    ShapesApart(t, t);
    v' := RemovalFollows(s, DiedStep, s', v, RevokeAllName(t), width);
  }

  lemma DeathFollows(s: State, s': State, v: Timers, width: nat) returns (v': Timers)
    requires Wf(s) && Step(s, DiedStep, s') && TimerRun(v, width) && Tracks(s, Now(v))
    ensures Follows(s, DiedStep, s', v, v', width)
  {
    if s.lock.phase == CancelTask {
      v' := CancelFollows(s, s', v, width);
    } else if s.lock.phase == DropSave {
      v' := EraseFollows(s, s', v, width);
    } else {
      v' := v;
      NothingFollows(s, DiedStep, s', v, width);
    }
  }

  lemma WalkFollows(s: State, s': State, v: Timers, width: nat) returns (v': Timers)
    requires Wf(s) && Step(s, AppMgrStep, s') && TimerRun(v, width) && Tracks(s, Now(v))
    requires s.lock.order != [] && (s.lock.phase == CancelTask || s.lock.phase == DropSave)
    ensures Follows(s, AppMgrStep, s', v, v', width)
  {
    var t := s.procs[s.lock.order[0]].token;
    ShapesApart(t, t);
    if s.lock.phase == CancelTask {
      v' := RemovalFollows(s, AppMgrStep, s', v, RevokeAllName(t), width);
    } else {
      v' := OtherFollows(s, AppMgrStep, s', v, T.RevokeEvery(t), width);
    }
  }

  lemma AppMgrFollows(s: State, s': State, v: Timers, width: nat) returns (v': Timers)
    requires Wf(s) && Step(s, AppMgrStep, s') && TimerRun(v, width) && Tracks(s, Now(v))
    ensures Follows(s, AppMgrStep, s', v, v', width)
  {
    if s.lock.order != [] && (s.lock.phase == CancelTask || s.lock.phase == DropSave) {
      v' := WalkFollows(s, s', v, width);
    } else {
      v' := v;
      NothingFollows(s, AppMgrStep, s', v, width);
    }
  }

  lemma NoneInFlight(s: State, name: string, v: T.SaveState)
    requires Tracks(s, v) && !InFlight(s, name)
    ensures forall j :: 0 <= j < |v.posted| ==> v.posted[j].name != name
  {
  }

  lemma SameRevoke(p: PermState, p': PermState, t: TokenId)
    requires SameTimers(p, p')
    ensures SameTimers(RevokeSaveOnce(p, t), RevokeSaveOnce(p', t))
  {
  }

  lemma SaveFires(s: State, k: nat, s': State, v: Timers, width: nat) returns (v': Timers)
    requires Wf(s) && Step(s, FireTask(k), s') && TimerRun(v, width) && Tracks(s, Now(v))
    requires s.perm.tasks[k].callback.RevokeSaveCount?
    ensures Follows(s, FireTask(k), s', v, v', width)
  {
    var task := s.perm.tasks[k];
    NoneInFlight(s, task.name, Now(v));
    SameRevoke(Now(v).perm.(tasks := RemoveAt(Now(v).perm.tasks, k)), s.perm.(tasks := RemoveAt(s.perm.tasks, k)),
               task.callback.token);
    v' := OtherFollows(s, FireTask(k), s', v, T.Fire(k), width);
  }

  lemma OtherFires(s: State, k: nat, s': State, v: Timers, width: nat) returns (v': Timers)
    requires Wf(s) && Step(s, FireTask(k), s') && TimerRun(v, width) && Tracks(s, Now(v))
    requires !s.perm.tasks[k].callback.RevokeSaveCount?
    ensures Follows(s, FireTask(k), s', v, v', width)
  {
    OtherFireKeeps(s, k);
    v' := OtherFollows(s, FireTask(k), s', v, T.FireOther(k), width);
  }

  lemma OtherFireKeeps(s: State, k: nat)
    requires k < |s.perm.tasks| && !s.perm.tasks[k].callback.RevokeSaveCount?
    ensures SameTimers(s.perm.(tasks := RemoveAt(s.perm.tasks, k)), DoFireTask(s, k).perm)
  {
  }

  lemma FireFollows(s: State, k: nat, s': State, v: Timers, width: nat) returns (v': Timers)
    requires Wf(s) && Step(s, FireTask(k), s') && TimerRun(v, width) && Tracks(s, Now(v))
    ensures Follows(s, FireTask(k), s', v, v', width)
  {
    if s.perm.tasks[k].callback.RevokeSaveCount? {
      v' := SaveFires(s, k, s', v, width);
    } else {
      v' := OtherFires(s, k, s', v, width);
    }
  }

  lemma DialogFollows(s: State, l: Label, s': State, v: Timers, width: nat) returns (v': Timers)
    requires Wf(s) && Step(s, l, s') && IsDialogStep(l) && !l.ClickGrant? && !l.DialogGrant?
    requires TimerRun(v, width) && Tracks(s, Now(v))
    ensures Follows(s, l, s', v, v', width)
  {
    if l.SetFirstUseBit? && s'.perm != s.perm {
      v' := PostingFollows(s, l, s', v, Task("", 0, SaveRecord), width);
    } else {
      v' := v;
      NothingFollows(s, l, s', v, width);
    }
  }

  // The sections of a grant

  /** Posting goes to the end of what is posted; whatever else is in flight was posted before. */
  lemma PostFollows(v: Timers, t: TokenId, clock: nat, width: nat) returns (v': Timers)
    requires TimerRun(v, width) && Now(v).lastClock < clock && |Decimal(clock)| == width
    ensures TimerRun(v', width) && Now(v').lastClock == clock && (AllInOrder(v) ==> AllInOrder(v'))
    ensures SameTimers(PostSave(Now(v).perm, t, SaveTaskName(t, clock)), Now(v').perm)
    ensures Now(v').posted == Now(v).posted + [T.Posted(t, SaveTaskName(t, clock))]
  {
    v' := OneMore(v, T.Post(t, clock), width);
  }

  /** Queueing takes away what is posted at place `i`; it is in order if nothing of its token is before it. */
  lemma PushFollows(v: Timers, i: nat, width: nat) returns (v': Timers)
    requires TimerRun(v, width) && i < |Now(v).posted|
    ensures TimerRun(v', width) && Now(v').lastClock == Now(v).lastClock
    ensures SameTimers(PushSave(Now(v).perm, Now(v).posted[i].token, Now(v).posted[i].name), Now(v').perm)
    ensures Now(v').posted == Now(v).posted[..i] + Now(v).posted[i + 1..]
    ensures AllInOrder(v) && (forall j :: 0 <= j < i ==> Now(v).posted[j].token != Now(v).posted[i].token) ==>
            AllInOrder(v')
  {
    v' := OneMore(v, T.Push(i), width);
  }

  /** Where a grant of token `t` stands, and what else is in flight. */
  ghost predicate Flying(v: T.SaveState, mine: seq<T.Posted>, other: seq<T.Posted>) {
    v.posted == mine + other || v.posted == other + mine
  }

  function FlightOf(t: TokenId, pc: GrantPc): seq<T.Posted> {
    if pc.NeedPush? then [T.Posted(t, pc.name)] else []
  }

  predicate Posts(t: TokenId, ty: SecCompType, pc: GrantPc, a: Answer) {
    pc.Begin? && t != INVALID_TOKEN && ty == Save && !a.dlpSandbox
  }

  lemma QuietSection(p: PermState, t: TokenId, ty: SecCompType, pc: GrantPc, a: Answer)
    requires !pc.Finished? && !pc.NeedPush? && !Posts(t, ty, pc, a)
    ensures var (p', pc') := GrantSection(p, t, ty, pc, a); SameTimers(p, p') && !pc'.NeedPush?
  {
  }

  lemma PostSection(p: PermState, t: TokenId, ty: SecCompType, pc: GrantPc, a: Answer)
    requires Posts(t, ty, pc, a)
    ensures GrantSection(p, t, ty, pc, a).0 == PostSave(p, t, SaveTaskName(t, a.clock))
    ensures GrantSection(p, t, ty, pc, a).1 == NeedPush(SaveTaskName(t, a.clock))
  {
  }

  /** Queueing takes a grant's own name, wherever it stands among the two that can be in flight. */
  lemma PushSection(t: TokenId, name: string, other: seq<T.Posted>, v: Timers, width: nat) returns (v': Timers)
    requires TimerRun(v, width) && Flying(Now(v), [T.Posted(t, name)], other) && |other| <= 1
    ensures TimerRun(v', width) && SameTimers(PushSave(Now(v).perm, t, name), Now(v').perm)
    ensures Now(v').posted == other && Now(v').lastClock == Now(v).lastClock
    ensures AllInOrder(v) && (other != [] ==> other[0].token != t) ==> AllInOrder(v')
  {
    var i := if Now(v).posted == [T.Posted(t, name)] + other then 0 else |other|;
    assert Now(v).posted[i] == T.Posted(t, name);
    v' := PushFollows(v, i, width);
  }

  lemma SamePush(p: PermState, p': PermState, t: TokenId, name: string)
    requires SameTimers(p, p')
    ensures SameTimers(PushSave(p, t, name), PushSave(p', t, name)) &&
            SameTimers(PostSave(p, t, name), PostSave(p', t, name))
  {
  }

  /** One section of a grant, whichever lock it runs under; `other` is what the other lock has in flight. */
  lemma SectionFollows(p: PermState, t: TokenId, ty: SecCompType, pc: GrantPc, a: Answer, other: seq<T.Posted>,
      v: Timers, width: nat)
    returns (v': Timers)
    requires TimerRun(v, width) && SameTimers(p, Now(v).perm) && !pc.Finished? && |other| <= 1
    requires Flying(Now(v), FlightOf(t, pc), other)
    requires Posts(t, ty, pc, a) ==> Now(v).lastClock < a.clock && |Decimal(a.clock)| == width
    ensures var (p', pc') := GrantSection(p, t, ty, pc, a);
            && TimerRun(v', width) && SameTimers(p', Now(v').perm) && Flying(Now(v'), FlightOf(t, pc'), other)
            && Now(v').lastClock == (if Posts(t, ty, pc, a) then a.clock else Now(v).lastClock)
    ensures AllInOrder(v) && (pc.NeedPush? && other != [] ==> other[0].token != t) ==> AllInOrder(v')
  {
    if Posts(t, ty, pc, a) {
      PostSection(p, t, ty, pc, a);
      SamePush(p, Now(v).perm, t, SaveTaskName(t, a.clock));
      v' := PostFollows(v, t, a.clock, width);
    } else if pc.NeedPush? {
      SamePush(p, Now(v).perm, t, pc.name);
      v' := PushSection(t, pc.name, other, v, width);
    } else {
      QuietSection(p, t, ty, pc, a);
      v' := v;
    }
  }

  lemma ClickFlightMoves(s: State, a: Answer)
    requires Enabled(s, ClickGrant(a))
    ensures var (s', e) := (DoClickGrant(s, a), s.ents[s.lock.scId]);
            && ClickFlight(s') == FlightOf(e.token, GrantSection(s.perm, e.token, e.comp.ty, s.lock.pc, a).1)
            && DialogFlight(s') == DialogFlight(s)
            && s'.perm == GrantSection(s.perm, e.token, e.comp.ty, s.lock.pc, a).0
  {
    if s.mapLock.DialogGranting? {
      ClickGrantFrame(s, a, s.mapLock.scId);
    }
  }

  lemma ClickGrantFollows(s: State, a: Answer, s': State, v: Timers, width: nat) returns (v': Timers)
    requires Step(s, ClickGrant(a), s') && TimerRun(v, width) && Tracks(s, Now(v))
    requires ClockFine(Now(v).lastClock, s, ClickGrant(a), width)
    ensures Follows(s, ClickGrant(a), s', v, v', width)
  {
    var e := s.ents[s.lock.scId];
    v' := SectionFollows(s.perm, e.token, e.comp.ty, s.lock.pc, a, DialogFlight(s), v, width);
    ClickFlightMoves(s, a);
  }

  lemma DialogFlightMoves(s: State, a: Answer)
    requires Enabled(s, DialogGrant(a))
    ensures var (s', t, ty) := (DoDialogGrant(s, a), s.ents[s.mapLock.scId].token, DialogType(s));
            && DialogFlight(s') == FlightOf(t, GrantSection(s.perm, t, ty, s.mapLock.pc, a).1)
            && ClickFlight(s') == ClickFlight(s)
            && s'.perm == GrantSection(s.perm, t, ty, s.mapLock.pc, a).0
  {
    if s.lock.Granting? {
      DialogGrantFrame(s, a, s.lock.scId);
    }
  }

  lemma DialogGrantFollows(s: State, a: Answer, s': State, v: Timers, width: nat) returns (v': Timers)
    requires Step(s, DialogGrant(a), s') && TimerRun(v, width) && Tracks(s, Now(v))
    requires ClockFine(Now(v).lastClock, s, DialogGrant(a), width)
    ensures Follows(s, DialogGrant(a), s', v, v', width)
  {
    var t, ty := s.ents[s.mapLock.scId].token, DialogType(s);
    v' := SectionFollows(s.perm, t, ty, s.mapLock.pc, a, ClickFlight(s), v, width);
    DialogFlightMoves(s, a);
  }

  lemma StepFollows(s: State, l: Label, s': State, v: Timers, width: nat) returns (v': Timers)
    requires Wf(s) && Step(s, l, s') && TimerRun(v, width) && Tracks(s, Now(v)) &&
             ClockFine(Now(v).lastClock, s, l, width)
    ensures Follows(s, l, s', v, v', width)
  {
    if IsCall(l) {
      v' := CallFollows(s, l, s', v, width);
    } else if l.DiedStep? {
      v' := DeathFollows(s, s', v, width);
    } else if l.AppMgrStep? {
      v' := AppMgrFollows(s, s', v, width);
    } else if IsProcessEvent(l) {
      v' := ProcessFollows(s, l, s', v, width);
    } else if l.ClickGrant? {
      v' := ClickGrantFollows(s, l.answer, s', v, width);
    } else if l.DialogGrant? {
      v' := DialogGrantFollows(s, l.answer, s', v, width);
    } else if IsDialogStep(l) {
      v' := DialogFollows(s, l, s', v, width);
    } else if l.FireTask? {
      v' := FireFollows(s, l.task, s', v, width);
    } else {
      v' := PreRegisterFollows(s, l, s', v, width);
    }
  }

  lemma PreRegisterFollows(s: State, l: Label, s': State, v: Timers, width: nat) returns (v': Timers)
    requires Wf(s) && Step(s, l, s') && (l.PreRegisterStop? || l.PreRegisterCommit?)
    requires TimerRun(v, width) && Tracks(s, Now(v))
    ensures Follows(s, l, s', v, v', width)
  {
    ShapesApart(0, 0);
    if l.PreRegisterStop? {
      v' := RemovalFollows(s, l, s', v, DELAY_EXIT_NAME, width);
    } else {
      v' := v;
      NothingFollows(s, l, s', v, width);
    }
  }

  // Whole runs

  predicate ClockAt(states: seq<State>, labels: seq<Label>, i: nat, width: nat)
    requires i < |labels| && i < |states|
  {
    ClockFine(LastClock(states, labels, i), states[i], labels[i], width)
  }

  /** Every clock that is read for a save task is later than the one before, and of one width. */
  ghost predicate ClocksFine(states: seq<State>, labels: seq<Label>, n: nat, width: nat)
    requires n <= |labels| && n <= |states|
  {
    forall i :: 0 <= i < n ==> ClockAt(states, labels, i, width)
  }

  ghost predicate OverlapFree(states: seq<State>, n: nat)
    requires n <= |states|
  {
    forall i :: 0 <= i < n ==> NoOverlap(states[i])
  }

  lemma StartFollows(s: State, width: nat) returns (v: Timers)
    requires Init(s)
    ensures TimerRun(v, width) && Tracks(s, Now(v)) && Now(v).lastClock == 0 && AllInOrder(v)
  {
    var first := T.SaveState(PermState(map[], map[], map[], {}, []), [], 0, []);
    v := Timers([first], []);
    v := OneMore(v, T.PostOther(EXIT_TASK), width);
    assert Now(v).perm.tasks == [EXIT_TASK];
  }

  lemma StartAt(states: seq<State>, labels: seq<Label>, width: nat) returns (v: Timers)
    requires IsRun(states, labels)
    ensures TimerRun(v, width) && Tracks(states[0], Now(v)) && Now(v).lastClock == 0 && AllInOrder(v)
  {
    v := StartFollows(states[0], width);
  }

  lemma FollowAt(states: seq<State>, labels: seq<Label>, i: nat, v: Timers, width: nat) returns (v': Timers)
    requires RoomyRun(states, labels) && i < |labels| && TimerRun(v, width) && Tracks(states[i], Now(v))
    requires Now(v).lastClock == LastClock(states, labels, i)
    requires ClockAt(states, labels, i, width)
    ensures TimerRun(v', width) && Tracks(states[i + 1], Now(v')) &&
            Now(v').lastClock == LastClock(states, labels, i + 1)
    ensures NoOverlap(states[i]) && AllInOrder(v) ==> AllInOrder(v')
  {
    RunWf(states, labels, i);
    assert StepAt(states, labels, i);
    v' := StepFollows(states[i], labels[i], states[i + 1], v, width);
  }

  lemma PastIsFine(states: seq<State>, labels: seq<Label>, n: nat, width: nat)
    requires 0 < n <= |labels| && n <= |states| && ClocksFine(states, labels, n, width)
    ensures ClocksFine(states, labels, n - 1, width) && ClockAt(states, labels, n - 1, width)
  {
  }

  lemma PastIsFree(states: seq<State>, n: nat)
    requires n < |states| && OverlapFree(states, n + 1)
    ensures OverlapFree(states, n) && NoOverlap(states[n])
  {
  }

  /** The timers' run that goes along with the first `n` steps of the service. */
  ghost predicate GoesAlong(states: seq<State>, labels: seq<Label>, n: nat, v: Timers, width: nat)
    requires n < |states| && n <= |labels|
  {
    && TimerRun(v, width) && Tracks(states[n], Now(v)) && Now(v).lastClock == LastClock(states, labels, n)
    && (OverlapFree(states, n) ==> AllInOrder(v))
  }

  lemma GoesOn(states: seq<State>, labels: seq<Label>, n: nat, v: Timers, width: nat) returns (v': Timers)
    requires RoomyRun(states, labels) && n < |labels| && ClockAt(states, labels, n, width)
    requires GoesAlong(states, labels, n, v, width)
    ensures GoesAlong(states, labels, n + 1, v', width)
  {
    v' := FollowAt(states, labels, n, v, width);
    if OverlapFree(states, n + 1) {
      PastIsFree(states, n);
    }
  }

  /**
   Each run of the service is a run of the save timers: the same counts, queues and
   pending tasks in the end, and every name queued in order if no two grants of one token
   were between posting and queueing at once.
   */
  lemma {:induction false} ServiceRunIsTimerRun(states: seq<State>, labels: seq<Label>, n: nat, width: nat)
    returns (v: Timers)
    requires RoomyRun(states, labels) && n < |states| && ClocksFine(states, labels, n, width)
    ensures GoesAlong(states, labels, n, v, width)
  {
    if n == 0 {
      v := StartAt(states, labels, width);
    } else {
      PastIsFine(states, labels, n, width);
      var before := ServiceRunIsTimerRun(states, labels, n - 1, width);
      v := GoesOn(states, labels, n - 1, before, width);
    }
  }

  /**
   Hence, in every reachable state of the service in whose past no two grants of a token
   overlapped: a token's count is the number of its save permissions that are queued; and
   if none of its grants is under way it can save exactly while one of its revoke tasks is
   pending, so a save permission never outlives its tasks.
   */
  lemma SavePermissionEnds(states: seq<State>, labels: seq<Label>, n: nat, width: nat, t: TokenId)
    requires RoomyRun(states, labels) && n < |states| && ClocksFine(states, labels, n, width)
    requires OverlapFree(states, n)
    ensures var s := states[n];
            && CountOf(s.perm, t) == |DequeOf(s.perm, t)|
            && (T.PostedOf(ClickFlight(s) + DialogFlight(s), t) == [] ==>
                  && DequeOf(s.perm, t) == SaveNames(s.perm.tasks, t)
                  && (VerifySave(s.perm, t) <==>
                       exists k :: 0 <= k < |s.perm.tasks| && s.perm.tasks[k].callback == RevokeSaveCount(t)))
  {
    var s := states[n];
    var v := ServiceRunIsTimerRun(states, labels, n, width);
    T.RunKeeps(v.states, v.steps, width, |v.steps|);
    assert T.Lined(Now(v), t) && T.Counted(Now(v), t);
    if T.PostedOf(ClickFlight(s) + DialogFlight(s), t) == [] {
      NothingPosted(ClickFlight(s), DialogFlight(s), t);
      assert DequeOf(s.perm, t) + [] == SaveNames(s.perm.tasks, t);
      TaskOfToken(s.perm.tasks, t);
    }
  }

  lemma NothingPosted(a: seq<T.Posted>, b: seq<T.Posted>, t: TokenId)
    requires T.PostedOf(a + b, t) == []
    ensures T.PostedOf(b + a, t) == []
  {
    T.PostedOfConcat(a, b, t);
    T.PostedOfConcat(b, a, t);
  }

  lemma {:induction false} TaskOfToken(q: seq<Task>, t: TokenId)
    ensures SaveNames(q, t) != [] <==> exists k :: 0 <= k < |q| && q[k].callback == RevokeSaveCount(t)
  {
    if q != [] {
      TaskOfToken(q[1..], t);
      if k :| 0 <= k < |q| && q[k].callback == RevokeSaveCount(t) && k > 0 {
        assert q[1..][k - 1] == q[k];
      }
      if k :| 0 <= k < |q[1..]| && q[1..][k].callback == RevokeSaveCount(t) {
        assert q[k + 1] == q[1..][k];
      }
    }
  }
}
