/** The service exits only when no component is registered, and never forgets to exit. */
module ServiceExit {
  import opened Types
  import opened EventHandler
  import opened PermManager
  import opened FirstUseDialog
  import opened Registry
  import opened Service
  import opened ServiceTasks

  ghost predicate ExitInv(s: State) {
    && (s.saExit ==> !AnyComponent(s.procs))
    && (s.procs == map[] ==> ExitPending(s.perm) || s.saExit || s.preRegs != [])
  }

  lemma DiedStepExit(s: State)
    requires Wf(s) && TasksInv(s) && ExitInv(s) && Enabled(s, DiedStep)
    ensures ExitInv(DoDiedStep(s))
  {
  }

  lemma RegisterAddExit(s: State, k: nat)
    requires ExitInv(s) && k < |s.starting|
    ensures ExitInv(DoRegisterAdd(s, k))
  {
    var s' := DoRegisterAdd(s, k);
    if s'.procs != s.procs {
      assert s.starting[k].caller.pid in s'.procs;
    }
  }

  lemma AppMgrStepExit(s: State)
    requires TasksInv(s) && ExitInv(s) && Enabled(s, AppMgrStep)
    ensures ExitInv(DoAppMgrStep(s)) && (s.saExit ==> DoAppMgrStep(s).saExit)
  {
    var s' := DoAppMgrStep(s);
    AppMgrStepShapes(s);
    if s.lock.order != [] {
      assert s.lock.order[0] in s'.procs;
      forall p | p in s'.procs && s'.procs[p].comps != [] ensures p in s.procs && s.procs[p].comps != [] {
      }
    }
  }

  lemma UnregisterExit(s: State, scId: int, c: Caller)
    requires TasksInv(s) && ExitInv(s)
    ensures ExitInv(DoUnregister(s, scId, c))
  {
  }

  lemma GrantExit(s: State, l: Label)
    requires Wf(s) && TasksInv(s) && ExitInv(s) && Enabled(s, l) && (l.ClickGrant? || l.DialogGrant?)
    ensures ExitInv(Exec(s, l))
  {
    if l.ClickGrant? {
      SectionQuiet(s.perm, s.ents[s.lock.scId].token, s.ents[s.lock.scId].comp.ty, s.lock.pc, l.answer);
    } else {
      SectionQuiet(s.perm, s.ents[s.mapLock.scId].token, DialogType(s), s.mapLock.pc, l.answer);
    }
  }

  lemma ProcessEventExit(s: State, pid: int)
    requires TasksInv(s) && ExitInv(s)
    ensures ExitInv(DoForeground(s, pid)) && ExitInv(DoBackground(s, pid))
  {
    if pid in s.procs {
      var f, b := DoForeground(s, pid), DoBackground(s, pid);
      assert pid in f.procs && pid in b.procs;
      forall p | p in s.procs ensures f.procs[p].comps == s.procs[p].comps == b.procs[p].comps {
      }
    }
  }

  lemma PreRegisterExit(s: State, c: Caller, k: nat)
    requires ExitInv(s)
    ensures ExitInv(DoPreRegisterStop(s, c))
    ensures k < |s.preRegs| ==> ExitInv(DoPreRegisterCommit(s, k))
  {
    if k < |s.preRegs| {
      var s' := DoPreRegisterCommit(s, k);
      assert s.preRegs[k].pid in s'.procs || s'.saExit;
    }
  }

  lemma FireExit(s: State, k: nat)
    requires TasksInv(s) && ExitInv(s) && Enabled(s, FireTask(k))
    ensures ExitInv(DoFireTask(s, k))
  {
    FireQuiet(s, k);
  }

  lemma SetBitExit(s: State, k: nat)
    requires TasksInv(s) && ExitInv(s) && Enabled(s, SetFirstUseBit(k))
    ensures ExitInv(DoSetFirstUseBit(s, k))
  {
  }

  lemma CallExit(s: State, l: Label)
    requires TasksInv(s) && ExitInv(s) && Enabled(s, l)
    requires l.Register? || l.CallCheck? || l.Update? || l.Click?
    ensures ExitInv(Exec(s, l)) && Exec(s, l).saExit == s.saExit
  {
  }

  lemma SamePermExit(s: State, l: Label)
    requires TasksInv(s) && ExitInv(s) && Enabled(s, l)
    requires l.ClickNotify? || l.Died? || l.AppMgrDied? || l.DialogClosed?
    ensures ExitInv(Exec(s, l)) && Exec(s, l).saExit == s.saExit
  {
  }

  lemma DialogStepExit(s: State, l: Label)
    requires Wf(s) && TasksInv(s) && ExitInv(s) && Enabled(s, l) && IsDialogStep(l)
    ensures ExitInv(Exec(s, l)) && Exec(s, l).saExit == s.saExit
  {
    if l.ClickGrant? || l.DialogGrant? {
      GrantExit(s, l);
    } else if l.SetFirstUseBit? {
      SetBitExit(s, l.index);
    } else {
      SamePermExit(s, l);
    }
  }

  lemma ProcessStepExit(s: State, l: Label)
    requires Wf(s) && TasksInv(s) && ExitInv(s) && Enabled(s, l) && IsProcessEvent(l)
    ensures ExitInv(Exec(s, l))
    ensures s.saExit ==> Exec(s, l).saExit
  {
    if l.DiedStep? {
      DiedStepExit(s);
    } else if l.AppMgrStep? {
      AppMgrStepExit(s);
    } else if l.Foreground? || l.Background? {
      ProcessEventExit(s, l.pid);
    } else {
      SamePermExit(s, l);
    }
  }

  lemma StepExit(s: State, l: Label)
    requires Wf(s) && TasksInv(s) && ExitInv(s) && Enabled(s, l)
    ensures ExitInv(Exec(s, l))
    ensures s.saExit ==> Exec(s, l).saExit
  {
    if IsDialogStep(l) {
      DialogStepExit(s, l);
    } else if IsProcessEvent(l) {
      ProcessStepExit(s, l);
    } else if l.RegisterAdd? {
      RegisterAddExit(s, l.index);
    } else if l.Unregister? {
      UnregisterExit(s, l.scId, l.caller);
    } else if l.PreRegisterStop? {
      PreRegisterExit(s, l.caller, 0);
    } else if l.PreRegisterCommit? {
      PreRegisterExit(s, s.preRegs[l.index], l.index);
    } else if l.FireTask? {
      FireExit(s, l.task);
    } else {
      CallExit(s, l);
    }
  }

  lemma ExitAt(states: seq<State>, labels: seq<Label>, i: nat)
    requires RoomyRun(states, labels) && i < |labels| && ExitInv(states[i])
    ensures ExitInv(states[i + 1])
    ensures states[i].saExit ==> states[i + 1].saExit
  {
    RunWf(states, labels, i);
    RunShapes(states, labels, i);
    assert StepAt(states, labels, i);
    StepExit(states[i], labels[i]);
  }

  lemma InitExit(s: State)
    requires Init(s)
    ensures ExitInv(s) && ExitPending(s.perm)
  {
    assert s.perm.tasks[0] == EXIT_TASK;
  }

  lemma {:induction false} RunExit(states: seq<State>, labels: seq<Label>, n: nat)
    requires RoomyRun(states, labels) && n < |states|
    ensures ExitInv(states[n])
  {
    if n == 0 {
      InitExit(states[0]);
    } else {
      RunExit(states, labels, n - 1);
      ExitAt(states, labels, n - 1);
    }
  }

  /**
   Once the service is exiting every process's list is empty, then and in any later
   state; and with no process registered it is exiting, or will be when the pending
   exit task runs, unless a caller is between stopping that task and registering.
   */
  lemma ExitIsSafeAndSure(states: seq<State>, labels: seq<Label>, m: nat, n: nat)
    requires RoomyRun(states, labels) && m <= n < |states|
    ensures states[m].saExit ==>
              states[n].saExit && forall pid :: pid in states[n].procs ==> states[n].procs[pid].comps == []
    ensures states[n].procs == map[] ==> states[n].saExit || ExitPending(states[n].perm) || states[n].preRegs != []
  {
    RunExit(states, labels, n);
    if states[m].saExit {
      StaysExiting(states, labels, m, n);
    }
  }

  lemma {:induction false} StaysExiting(states: seq<State>, labels: seq<Label>, m: nat, n: nat)
    requires RoomyRun(states, labels) && m <= n < |states| && states[m].saExit
    ensures states[n].saExit
  {
    if m < n {
      StaysExiting(states, labels, m, n - 1);
      RunExit(states, labels, n - 1);
      ExitAt(states, labels, n - 1);
    }
  }

  // When the service exits

  /** The exit task exits exactly when every process's list is empty; registered processes alone do not keep it. */
  lemma ExitTaskDecides(s: State, k: nat)
    requires Enabled(s, FireTask(k)) && s.perm.tasks[k].callback == ExitSa
    ensures var s' := Exec(s, FireTask(k));
            && (s'.saExit <==> s.saExit || forall pid :: pid in s.procs ==> s.procs[pid].comps == [])
            && s' == s.(saExit := s'.saExit, perm := s.perm.(tasks := s'.perm.tasks))
            && multiset(s.perm.tasks) == multiset(s'.perm.tasks) + multiset{s.perm.tasks[k]}
  {
    var q := s.perm.tasks;
    assert q == q[..k] + [q[k]] + q[k + 1..];
  }

  /** Taking a component off the register leaves an exit pending; the service then exits unless another is left. */
  lemma UnregisterStartsExit(s: State, scId: int, c: Caller)
    ensures var s' := DoUnregister(s, scId, c);
            if 0 <= scId && c.pid in s.procs && scId in s.procs[c.pid].comps then
              ExitPending(s'.perm) && s'.procs.Keys == s.procs.Keys
              && multiset(s.procs[c.pid].comps) == multiset(s'.procs[c.pid].comps) + multiset{scId}
              && forall pid :: pid in s.procs && pid != c.pid ==> s'.procs[pid] == s.procs[pid]
            else s' == s
  {
    var s' := DoUnregister(s, scId, c);
    if s' != s {
      RemovesOne(s.procs[c.pid].comps, scId);
      assert EXIT_TASK in s'.perm.tasks;
    }
  }

  lemma {:induction false} RemovesOne(list: seq<int>, id: int)
    requires id in list
    ensures multiset(list) == multiset(RemoveFirst(list, id)) + multiset{id}
  {
    assert list == [list[0]] + list[1..];
    if list[0] != id {
      RemovesOne(list[1..], id);
    }
  }

  // When the exit is never lost

  /** With no process registered the service is exiting, or will when the pending exit task runs. */
  ghost predicate ExitWatched(s: State) {
    s.procs == map[] ==> ExitPending(s.perm) || s.saExit
  }

  /** A pre-registration takes the exit task back while nobody is registered. */
  predicate StopsLastExit(s: State, l: Label) {
    l.PreRegisterStop? && s.procs == map[] && !s.saExit
  }

  lemma CallWatched(s: State, l: Label)
    requires Wf(s) && TasksInv(s) && ExitWatched(s) && Enabled(s, l) && IsCall(l)
    ensures ExitWatched(Exec(s, l))
  {
    if l.RegisterAdd? {
      AddWatched(s, l.index);
    } else if l.Unregister? {
      DeleteWatched(s, l.scId, l.caller);
    } else {
      CallShapes(s, l);
    }
  }

  lemma AddWatched(s: State, k: nat)
    requires ExitWatched(s) && k < |s.starting|
    ensures ExitWatched(DoRegisterAdd(s, k))
  {
    var s' := DoRegisterAdd(s, k);
    if s'.perm != s.perm {
      assert s.starting[k].caller.pid in s'.procs;
    }
  }

  lemma DeleteWatched(s: State, scId: int, c: Caller)
    requires TasksInv(s) && ExitWatched(s)
    ensures ExitWatched(DoUnregister(s, scId, c))
  {
    PostShapes(s.perm, EXIT_TASK);
  }

  lemma DialogWatched(s: State, l: Label)
    requires Wf(s) && TasksInv(s) && ExitWatched(s) && Enabled(s, l) && IsDialogStep(l)
    ensures ExitWatched(Exec(s, l))
  {
    if l.ClickGrant? {
      ClickGrantShapes(s, l.answer);
    } else if l.DialogGrant? {
      DialogGrantShapes(s, l.answer);
    } else if l.SetFirstUseBit? {
      PostShapes(s.perm, Task("", 0, SaveRecord));
    }
  }

  lemma ProcessWatched(s: State, l: Label)
    requires Wf(s) && TasksInv(s) && ExitWatched(s) && Enabled(s, l) && IsProcessEvent(l)
    ensures ExitWatched(Exec(s, l))
  {
    if l.DiedStep? {
      DeathWatched(s);
    } else if l.AppMgrStep? {
      AppMgrWatched(s);
    } else {
      NoticeWatched(s, l);
    }
  }

  lemma AppMgrWatched(s: State)
    requires TasksInv(s) && ExitWatched(s) && Enabled(s, AppMgrStep)
    ensures ExitWatched(DoAppMgrStep(s))
  {
    AppMgrStepShapes(s);
    assert s.lock.order != [] ==> s.lock.order[0] in DoAppMgrStep(s).procs;
  }

  lemma NoticeWatched(s: State, l: Label)
    requires ExitWatched(s) && Enabled(s, l) && IsProcessEvent(l) && !l.DiedStep? && !l.AppMgrStep?
    ensures ExitWatched(Exec(s, l))
  {
    if l.Foreground? || l.Background? {
      assert l.pid in s.procs ==> l.pid in Exec(s, l).procs;
    }
  }

  lemma DeathWatched(s: State)
    requires TasksInv(s) && Enabled(s, DiedStep)
    ensures ExitWatched(DoDiedStep(s))
  {
    var s' := DoDiedStep(s);
    if s.lock.phase == DropSave {
      assert s'.perm.tasks[|s'.perm.tasks| - 1] == EXIT_TASK;
    } else {
      assert s.lock.pid in s'.procs;
    }
  }

  lemma FireWatched(s: State, k: nat)
    requires TasksInv(s) && ExitWatched(s) && k < |s.perm.tasks|
    ensures ExitWatched(DoFireTask(s, k))
  {
    FireQuiet(s, k);
  }

  lemma CommitWatched(s: State, k: nat)
    requires ExitWatched(s) && k < |s.preRegs|
    ensures ExitWatched(DoPreRegisterCommit(s, k))
  {
    assert s.preRegs[k].pid in DoPreRegisterCommit(s, k).procs || s.saExit;
  }

  /** Every step keeps the exit watched, except a pre-registration that takes back the last exit task. */
  lemma StepWatched(s: State, l: Label)
    requires Wf(s) && TasksInv(s) && ExitWatched(s) && Enabled(s, l)
    ensures ExitWatched(Exec(s, l)) <==> !StopsLastExit(s, l)
  {
    if IsCall(l) {
      CallWatched(s, l);
    } else if IsDialogStep(l) {
      DialogWatched(s, l);
    } else if IsProcessEvent(l) {
      ProcessWatched(s, l);
    } else if l.FireTask? {
      FireWatched(s, l.task);
    } else if l.PreRegisterCommit? {
      CommitWatched(s, l.index);
    } else {
      StopExitShapes(s.perm);
    }
  }

  lemma WatchedAt(states: seq<State>, labels: seq<Label>, i: nat)
    requires RoomyRun(states, labels) && i < |labels| && ExitWatched(states[i])
    ensures ExitWatched(states[i + 1]) <==> !StopsLastExit(states[i], labels[i])
  {
    RunWf(states, labels, i);
    RunShapes(states, labels, i);
    assert StepAt(states, labels, i);
    StepWatched(states[i], labels[i]);
  }

  lemma {:induction false} WatchedUnlessStopped(states: seq<State>, labels: seq<Label>, n: nat)
    requires RoomyRun(states, labels) && n < |states|
    requires forall i :: 0 <= i < n ==> !StopsLastExit(states[i], labels[i])
    ensures ExitWatched(states[n])
  {
    if n == 0 {
      InitExit(states[0]);
    } else {
      WatchedUnlessStopped(states, labels, n - 1);
      WatchedAt(states, labels, n - 1);
    }
  }

  /**
   The exit is watched in every state of a run exactly when no pre-registration
   starts while the register is empty and the service is not exiting.
   */
  lemma ExitIsWatched(states: seq<State>, labels: seq<Label>, n: nat)
    requires RoomyRun(states, labels) && n < |states|
    ensures (forall i :: 0 <= i <= n ==> ExitWatched(states[i]))
       <==> (forall i :: 0 <= i < n ==> !StopsLastExit(states[i], labels[i]))
  {
    if forall i :: 0 <= i <= n ==> ExitWatched(states[i]) {
      forall i | 0 <= i < n ensures !StopsLastExit(states[i], labels[i]) {
        assert ExitWatched(states[i]) && ExitWatched(states[i + 1]);
        WatchedAt(states, labels, i);
      }
    }
    if forall i :: 0 <= i < n ==> !StopsLastExit(states[i], labels[i]) {
      forall i | 0 <= i <= n ensures ExitWatched(states[i]) {
        WatchedUnlessStopped(states, labels, i);
      }
    }
  }

  /** The first pre-registration of a fresh service leaves it with no process and no exit pending. */
  lemma FirstPreRegistrationStopsExit(s: State, c: Caller)
    requires Init(s)
    ensures Enabled(s, PreRegisterStop(c)) && StopsLastExit(s, PreRegisterStop(c))
    ensures var s' := Exec(s, PreRegisterStop(c)); s'.procs == map[] && !ExitPending(s'.perm) && !s'.saExit
  {
    assert QueueInv(s.perm);
    StopExitShapes(s.perm);
  }
}
