/** No permission outlives the processes of its token. */
module ServiceSafety {
  import opened Types
  import opened TaskNames
  import opened EventHandler
  import opened PermManager
  import opened Entity
  import opened FirstUseDialog
  import opened Registry
  import opened Service

  ghost predicate HasProc(procs: Procs, t: TokenId) {
    exists pid :: pid in procs && procs[pid].token == t
  }

  ghost predicate HasOtherProc(procs: Procs, t: TokenId, than: int) {
    exists pid :: pid in procs && pid != than && procs[pid].token == t
  }

  /** The token has a save count or a recorded permission. */
  predicate Touched(p: PermState, t: TokenId) {
    t in p.counts || GrantedSet(p, t) != {}
  }

  /** Every waiting component belongs to a registered process that is not past dropping its waits. */
  ghost predicate WaitsOwned(s: State) {
    forall sc :: sc in s.dialog.waits ==>
      && s.dialog.waits[sc].pid in s.procs
      && s.procs[s.dialog.waits[sc].pid].token == s.dialog.waits[sc].token
      && !(s.lock.Dying? && s.lock.phase != DropWaits && s.lock.pid == s.dialog.waits[sc].pid)
  }

  ghost predicate TouchedOwned(s: State) {
    forall t: TokenId :: Touched(s.perm, t) ==> HasProc(s.procs, t)
  }

  /** Between revoking a dying process's grants and erasing it, only another process of its token can be granted. */
  ghost predicate DyingRevoked(s: State) {
    s.lock.Dying? && s.lock.pid in s.procs && (s.lock.phase == CancelTask || s.lock.phase == DropSave) ==>
      var t := s.procs[s.lock.pid].token;
      GrantedSet(s.perm, t) != {} ==> HasOtherProc(s.procs, t, s.lock.pid)
  }

  ghost predicate NoOrphans(s: State) {
    !s.saExit ==> WaitsOwned(s) && TouchedOwned(s) && DyingRevoked(s)
  }

  lemma SectionTouchesOnly(p: PermState, t: TokenId, ty: SecCompType, pc: GrantPc, a: Answer, u: TokenId)
    requires !pc.Finished? && u != t
    ensures var p' := GrantSection(p, t, ty, pc, a).0;
            Touched(p', u) == Touched(p, u) && GrantedSet(p', u) == GrantedSet(p, u)
  {
  }

  /** Steps that neither start a grant nor remove a process. */
  lemma QuietStep(s: State, s': State)
    requires NoOrphans(s)
    requires s'.saExit || !s.saExit
    requires forall pid :: pid in s.procs ==> pid in s'.procs && s'.procs[pid].token == s.procs[pid].token
    requires forall t: TokenId :: Touched(s'.perm, t) ==> Touched(s.perm, t)
    requires s'.dialog.waits == s.dialog.waits
    requires s'.lock == s.lock || !s'.lock.Dying? || s'.lock.phase == DropWaits
    requires s'.lock.Dying? && s'.lock.pid in s'.procs ==> s'.lock.pid in s.procs
    requires forall t: TokenId :: GrantedSet(s'.perm, t) != {} ==> GrantedSet(s.perm, t) != {}
    ensures NoOrphans(s')
  {
  }

  lemma ClickGrantSafe(s: State, a: Answer)
    requires Wf(s) && NoOrphans(s) && Enabled(s, ClickGrant(a))
    ensures NoOrphans(DoClickGrant(s, a))
  {
  }

  lemma NotifySafe(s: State, a: DialogAnswer)
    requires Wf(s) && NoOrphans(s) && Enabled(s, ClickNotify(a))
    ensures NoOrphans(DoNotify(s, a))
  {
  }

  lemma DialogGrantSafe(s: State, a: Answer)
    requires Wf(s) && NoOrphans(s) && Enabled(s, DialogGrant(a))
    ensures NoOrphans(DoDialogGrant(s, a))
  {
    var s' := DoDialogGrant(s, a);
    var sc := s.mapLock.scId;
    var e := s.ents[sc];
    assert sc in s.dialog.waits && s.dialog.waits[sc] == OwnerOfEntity(e);
    if !s.saExit {
      forall t: TokenId | Touched(s'.perm, t) ensures HasProc(s'.procs, t) {
        if t != e.token {
          SectionTouchesOnly(s.perm, e.token, DialogType(s), s.mapLock.pc, a, t);
        } else {
          assert e.pid in s.procs && s.procs[e.pid].token == t;
        }
      }
      if s.lock.Dying? && (s.lock.phase == CancelTask || s.lock.phase == DropSave) {
        var t := s.procs[s.lock.pid].token;
        if t == e.token {
          assert e.pid in s.procs && e.pid != s.lock.pid && s.procs[e.pid].token == t;
        } else {
          SectionTouchesOnly(s.perm, e.token, DialogType(s), s.mapLock.pc, a, t);
        }
      }
    }
  }

  lemma DiedStepSafe(s: State)
    requires Wf(s) && NoOrphans(s) && Enabled(s, DiedStep)
    ensures NoOrphans(DoDiedStep(s))
  {
    var s' := DoDiedStep(s);
    var pid, token := s.lock.pid, s.procs[s.lock.pid].token;
    if !s.saExit && s.lock.phase != DropSave {
      forall t: TokenId | Touched(s'.perm, t) ensures HasProc(s'.procs, t) {
        assert Touched(s.perm, t);
        var p :| p in s.procs && s.procs[p].token == t;
        assert p in s'.procs && s'.procs[p].token == t;
      }
    } else if !s.saExit {
      forall t: TokenId | Touched(s'.perm, t) ensures HasProc(s'.procs, t) {
        assert Touched(s.perm, t);
        if t == token {
          var p :| p in s.procs && p != pid && s.procs[p].token == t;
          assert p in s'.procs && s'.procs[p].token == t;
        } else {
          var p :| p in s.procs && s.procs[p].token == t;
          assert p in s'.procs && s'.procs[p].token == t;
        }
      }
    }
  }

  lemma RevokeTouches(p: PermState, u: TokenId, t: TokenId)
    ensures Touched(RevokeNow(p, u), t) ==> Touched(p, t)
    ensures Touched(RevokeSaveOnce(p, u), t) ==> Touched(p, t)
    ensures GrantedSet(RevokeNow(p, u), t) != {} ==> GrantedSet(p, t) != {}
    ensures GrantedSet(RevokeSaveOnce(p, u), t) == GrantedSet(p, t)
  {
  }

  lemma FireTouches(s: State, k: nat, t: TokenId)
    requires k < |s.perm.tasks|
    ensures Touched(DoFireTask(s, k).perm, t) ==> Touched(s.perm, t)
    ensures GrantedSet(DoFireTask(s, k).perm, t) != {} ==> GrantedSet(s.perm, t) != {}
  {
    var started := s.perm.(tasks := RemoveAt(s.perm.tasks, k));
    match s.perm.tasks[k].callback {
      case RevokeAll(u) => RevokeTouches(started, u, t);
      case RevokeSaveCount(u) => RevokeTouches(started, u, t);
      case _ =>
    }
  }

  lemma FireSafe(s: State, k: nat)
    requires NoOrphans(s) && k < |s.perm.tasks|
    ensures NoOrphans(DoFireTask(s, k))
  {
    forall t: TokenId {
      FireTouches(s, k, t);
    }
    QuietStep(s, DoFireTask(s, k));
  }

  lemma AppMgrDiedSafe(s: State, order: seq<int>)
    requires NoOrphans(s)
    ensures NoOrphans(DoAppMgrDied(s, order))
  {
    QuietStep(s, DoAppMgrDied(s, order));
  }

  lemma AppMgrStepSafe(s: State)
    requires NoOrphans(s) && Enabled(s, AppMgrStep)
    ensures NoOrphans(DoAppMgrStep(s))
  {
    var s' := DoAppMgrStep(s);
    if !s'.saExit {
      QuietStep(s, s');
    }
  }

  lemma RegisterAddSafe(s: State, k: nat)
    requires NoOrphans(s) && s.lock == Free && k < |s.starting|
    ensures NoOrphans(DoRegisterAdd(s, k))
  {
    QuietStep(s, DoRegisterAdd(s, k));
  }

  lemma UpdateSafe(s: State, scId: int, c: Caller, r: ReportInput)
    requires NoOrphans(s)
    ensures NoOrphans(DoUpdate(s, scId, c, r))
  {
    QuietStep(s, DoUpdate(s, scId, c, r));
  }

  lemma ClickSafe(s: State, scId: int, c: Caller, input: ClickInput)
    requires NoOrphans(s) && s.lock == Free
    ensures NoOrphans(DoClick(s, scId, c, input))
  {
    QuietStep(s, DoClick(s, scId, c, input));
  }

  lemma RegisterSafe(s: State, c: Caller, r: ReportInput)
    requires NoOrphans(s)
    ensures NoOrphans(DoRegister(s, c, r))
  {
    QuietStep(s, DoRegister(s, c, r));
  }

  lemma UnregisterSafe(s: State, scId: int, c: Caller)
    requires NoOrphans(s)
    ensures NoOrphans(DoUnregister(s, scId, c))
  {
    QuietStep(s, DoUnregister(s, scId, c));
  }

  lemma CallSafe(s: State, l: Label)
    requires NoOrphans(s) && Enabled(s, l) && IsCall(l)
    ensures NoOrphans(Exec(s, l))
  {
    if l.Register? {
      RegisterSafe(s, l.caller, l.report);
    } else if l.RegisterAdd? {
      RegisterAddSafe(s, l.index);
    } else if l.CallCheck? {
      QuietStep(s, DoCallCheck(s, l.call));
    } else if l.Update? {
      UpdateSafe(DropCall(s, l.index), s.passed[l.index].scId, s.passed[l.index].caller, s.passed[l.index].report);
    } else if l.Unregister? {
      UnregisterSafe(s, l.scId, l.caller);
    } else {
      ClickSafe(DropCall(s, l.index), s.passed[l.index].scId, s.passed[l.index].caller, s.passed[l.index].click);
    }
  }

  lemma DialogClosedSafe(s: State, scId: int, result: int)
    requires NoOrphans(s)
    ensures NoOrphans(DoDialogClosed(s, scId, result))
  {
    QuietStep(s, DoDialogClosed(s, scId, result));
  }

  lemma SetBitSafe(s: State, k: nat)
    requires NoOrphans(s) && k < |s.closing| && s.closing[k].scId in s.ents
    ensures NoOrphans(DoSetFirstUseBit(s, k))
  {
    QuietStep(s, DoSetFirstUseBit(s, k));
  }

  lemma DiedSafe(s: State, pid: int, cached: bool)
    requires NoOrphans(s)
    ensures NoOrphans(DoDied(s, pid, cached))
  {
    QuietStep(s, DoDied(s, pid, cached));
  }

  lemma ForegroundSafe(s: State, pid: int)
    requires NoOrphans(s)
    ensures NoOrphans(DoForeground(s, pid)) && NoOrphans(DoBackground(s, pid))
  {
    QuietStep(s, DoForeground(s, pid));
    QuietStep(s, DoBackground(s, pid));
  }

  lemma PreRegisterStopSafe(s: State, c: Caller)
    requires NoOrphans(s)
    ensures NoOrphans(DoPreRegisterStop(s, c))
  {
    QuietStep(s, DoPreRegisterStop(s, c));
  }

  lemma PreRegisterCommitSafe(s: State, k: nat)
    requires NoOrphans(s) && s.lock == Free && k < |s.preRegs|
    ensures NoOrphans(DoPreRegisterCommit(s, k))
  {
    QuietStep(s, DoPreRegisterCommit(s, k));
  }

  lemma ProcessEventSafe(s: State, l: Label)
    requires Wf(s) && NoOrphans(s) && Enabled(s, l) && IsProcessEvent(l)
    ensures NoOrphans(Exec(s, l))
  {
    match l {
      case Died(pid, cached) => DiedSafe(s, pid, cached);
      case DiedStep => DiedStepSafe(s);
      case AppMgrDied(order) => AppMgrDiedSafe(s, order);
      case AppMgrStep => AppMgrStepSafe(s);
      case Foreground(pid) => ForegroundSafe(s, pid);
      case Background(pid) => ForegroundSafe(s, pid);
    }
  }

  lemma DialogStepSafe(s: State, l: Label)
    requires Wf(s) && NoOrphans(s) && Enabled(s, l) && IsDialogStep(l)
    ensures NoOrphans(Exec(s, l))
  {
    match l {
      case ClickNotify(a) => NotifySafe(s, a);
      case ClickGrant(a) => ClickGrantSafe(s, a);
      case DialogClosed(scId, result) => DialogClosedSafe(s, scId, result);
      case DialogGrant(a) => DialogGrantSafe(s, a);
      case SetFirstUseBit(k) => SetBitSafe(s, k);
    }
  }

  lemma StepSafe(s: State, l: Label)
    requires Wf(s) && NoOrphans(s) && Enabled(s, l)
    ensures NoOrphans(Exec(s, l))
  {
    if IsCall(l) {
      CallSafe(s, l);
    } else if l.PreRegisterStop? {
      PreRegisterStopSafe(s, l.caller);
    } else if l.PreRegisterCommit? {
      PreRegisterCommitSafe(s, l.index);
    } else if l.FireTask? {
      FireSafe(s, l.task);
    } else if IsDialogStep(l) {
      DialogStepSafe(s, l);
    } else {
      ProcessEventSafe(s, l);
    }
  }

  // The record covers what the kit holds, in every state

  lemma SameGrantsRecorded(p: PermState, p': PermState)
    requires Recorded(p) && p'.held == p.held && p'.grantMap == p.grantMap
    ensures Recorded(p')
  {
  }

  lemma FireRecorded(s: State, k: nat)
    requires Recorded(s.perm) && k < |s.perm.tasks|
    ensures Recorded(DoFireTask(s, k).perm)
  {
    var started := s.perm.(tasks := RemoveAt(s.perm.tasks, k));
    SameGrantsRecorded(s.perm, started);
    match s.perm.tasks[k].callback {
      case RevokeAll(t) => RevokeNowTakesAll(started, t);
      case RevokeSaveCount(t) => SameGrantsRecorded(started, RevokeSaveOnce(started, t));
      case _ =>
    }
  }

  lemma DiedStepRecorded(s: State)
    requires Recorded(s.perm) && Enabled(s, DiedStep)
    ensures Recorded(DoDiedStep(s).perm)
  {
    var t := s.procs[s.lock.pid].token;
    match s.lock.phase {
      case RevokeGrants => RevokeNowTakesAll(s.perm, t);
      case _ => SameGrantsRecorded(s.perm, DoDiedStep(s).perm);
    }
  }

  lemma AppMgrStepRecorded(s: State)
    requires Recorded(s.perm) && Enabled(s, AppMgrStep)
    ensures Recorded(DoAppMgrStep(s).perm)
  {
    var s' := DoAppMgrStep(s);
    if s.lock.order != [] && s.lock.phase != CancelTask && s.lock.phase != DropSave {
      RevokeNowTakesAll(s.perm, s.procs[s.lock.order[0]].token);
    } else {
      SameGrantsRecorded(s.perm, s'.perm);
    }
  }

  lemma QuietRecorded(s: State, l: Label)
    requires Recorded(s.perm) && Enabled(s, l) && !IsCall(l)
    requires !l.ClickGrant? && !l.DialogGrant? && !l.DiedStep? && !l.AppMgrStep? && !l.FireTask?
    ensures Recorded(Exec(s, l).perm)
  {
    SameGrantsRecorded(s.perm, Exec(s, l).perm);
  }

  lemma CallRecorded(s: State, l: Label)
    requires Recorded(s.perm) && Enabled(s, l) && IsCall(l)
    ensures Recorded(Exec(s, l).perm)
  {
    SameGrantsRecorded(s.perm, Exec(s, l).perm);
  }

  lemma GrantRecorded(s: State, l: Label)
    requires Recorded(s.perm) && Enabled(s, l) && (l.ClickGrant? || l.DialogGrant?)
    ensures Recorded(Exec(s, l).perm)
  {
    if l.ClickGrant? {
      var e := s.ents[s.lock.scId];
      SectionKeepsRecorded(s.perm, e.token, e.comp.ty, s.lock.pc, l.answer);
    } else {
      SectionKeepsRecorded(s.perm, s.ents[s.mapLock.scId].token, DialogType(s), s.mapLock.pc, l.answer);
    }
  }

  lemma StepRecorded(s: State, l: Label)
    requires Recorded(s.perm) && Enabled(s, l)
    ensures Recorded(Exec(s, l).perm)
  {
    if IsCall(l) {
      CallRecorded(s, l);
    } else if l.ClickGrant? || l.DialogGrant? {
      GrantRecorded(s, l);
    } else if l.DiedStep? {
      DiedStepRecorded(s);
    } else if l.AppMgrStep? {
      AppMgrStepRecorded(s);
    } else if l.FireTask? {
      FireRecorded(s, l.task);
    } else {
      QuietRecorded(s, l);
    }
  }

  // Whole runs

  ghost predicate Safe(s: State) {
    NoOrphans(s) && Recorded(s.perm)
  }

  lemma InitSafe(s: State)
    requires Init(s)
    ensures Safe(s)
  {
  }

  lemma SafeAt(states: seq<State>, labels: seq<Label>, i: nat)
    requires RoomyRun(states, labels) && i < |labels| && Safe(states[i])
    ensures Safe(states[i + 1])
  {
    RunWf(states, labels, i);
    assert StepAt(states, labels, i);
    StepSafe(states[i], labels[i]);
    StepRecorded(states[i], labels[i]);
  }

  lemma {:induction false} RunSafe(states: seq<State>, labels: seq<Label>, n: nat)
    requires RoomyRun(states, labels) && n < |states|
    ensures Safe(states[n])
  {
    if n == 0 {
      InitSafe(states[0]);
    } else {
      RunSafe(states, labels, n - 1);
      SafeAt(states, labels, n - 1);
    }
  }

  /**
   In every reachable state of a service that is not exiting: a token that can
   save, or has a recorded grant, or really holds a permission through the component
   flag, belongs to a registered process, and so does every component a dialog waits for.
   */
  lemma NoPermissionWithoutProcess(states: seq<State>, labels: seq<Label>, n: nat, t: TokenId)
    requires RoomyRun(states, labels) && n < |states| && !states[n].saExit
    ensures var s := states[n];
            && (VerifySave(s.perm, t) || GrantedSet(s.perm, t) != {} || !HoldsNothing(s.perm, t) ==>
                 HasProc(s.procs, t))
            && forall sc :: sc in s.dialog.waits ==> s.dialog.waits[sc].pid in s.procs
  {
    RunSafe(states, labels, n);
    var s := states[n];
    if p: Permission :| (t, p) in s.perm.held {
      var x := (t, p);
      assert x.1 in GrantedSet(s.perm, x.0);
    }
  }
}
