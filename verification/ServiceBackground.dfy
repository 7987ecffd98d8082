/** Grants are taken back from applications that are in the background. */
module ServiceBackground {
  import opened Types
  import opened TaskNames
  import opened EventHandler
  import opened PermManager
  import opened Entity
  import opened FirstUseDialog
  import opened Registry
  import opened Service
  import opened ServiceTasks
  import opened ServiceSafety

  ghost predicate AnyForeground(procs: Procs, t: TokenId) {
    exists pid :: pid in procs && procs[pid].token == t && procs[pid].foreground
  }

  ghost predicate OtherForeground(procs: Procs, t: TokenId, than: int) {
    exists pid :: pid in procs && pid != than && procs[pid].token == t && procs[pid].foreground
  }

  /** A token whose processes are all in the background has nothing granted, or is about to lose it. */
  ghost predicate TakenBack(procs: Procs, p: PermState, t: TokenId) {
    HasProc(procs, t) && !AnyForeground(procs, t) ==> RevokePending(p, t) || GrantedSet(p, t) == {}
  }

  ghost predicate BackgroundInv(s: State) {
    && (forall t: TokenId :: TakenBack(s.procs, s.perm, t))
    && (s.lock.Dying? && s.lock.pid in s.procs && (s.lock.phase == CancelTask || s.lock.phase == DropSave) ==>
          var t := s.procs[s.lock.pid].token;
          GrantedSet(s.perm, t) == {} || OtherForeground(s.procs, t, s.lock.pid))
    && (s.lock.AppMgrDying? && s.lock.phase == CancelTask && s.lock.order != [] && s.lock.order[0] in s.procs ==>
          var t := s.procs[s.lock.order[0]].token;
          GrantedSet(s.perm, t) == {} || AnyForeground(s.procs, t))
  }

  /** The section records a permission. */
  predicate Records(t: TokenId, ty: SecCompType, pc: GrantPc) {
    pc == NeedLocation || (pc == Begin && t != INVALID_TOKEN && (ty == Location || ty == Paste))
  }

  /** The token for which a step records a permission. */
  function RecordedFor(s: State, l: Label): Option<TokenId> {
    if l.ClickGrant? && s.lock.Granting? && s.lock.scId in s.ents then
      var e := s.ents[s.lock.scId];
      if Records(e.token, e.comp.ty, s.lock.pc) then Some(e.token) else None
    else if l.DialogGrant? && s.mapLock.DialogGranting? && s.mapLock.scId in s.ents then
      var e := s.ents[s.mapLock.scId];
      if Records(e.token, DialogType(s), s.mapLock.pc) then Some(e.token) else None
    else None
  }

  /**
   The token has a process in the foreground, or a revocation pending. A death past
   revoking still cancels the revocation of its token and erases its own process,
   and so does the application manager's death.
   */
  ghost predicate Covered(s: State, t: TokenId) {
    if s.lock.Dying? && s.lock.pid in s.procs && s.procs[s.lock.pid].token == t
       && (s.lock.phase == CancelTask || s.lock.phase == DropSave) then
      OtherForeground(s.procs, t, s.lock.pid)
    else if s.lock.AppMgrDying? && s.lock.phase == CancelTask && s.lock.order != []
            && s.lock.order[0] in s.procs && s.procs[s.lock.order[0]].token == t then
      AnyForeground(s.procs, t)
    else
      !HasProc(s.procs, t) || AnyForeground(s.procs, t) || RevokePending(s.perm, t)
  }

  ghost predicate RecordsCovered(s: State, l: Label) {
    RecordedFor(s, l).Some? ==> Covered(s, RecordedFor(s, l).value)
  }

  lemma SectionGrants(p: PermState, t: TokenId, ty: SecCompType, pc: GrantPc, a: Answer)
    requires !pc.Finished?
    ensures var p' := GrantSection(p, t, ty, pc, a).0;
            if Records(t, ty, pc) then GrantedSet(p', t) != {} else GrantedSet(p', t) <= GrantedSet(p, t)
  {
    if Records(t, ty, pc) {
      var permission := if pc == NeedLocation then PreciseLocation
                        else if ty == Location then ApproximatelyLocation else SecurePaste;
      assert permission in GrantedSet(GrantSection(p, t, ty, pc, a).0, t);
    }
  }

  /** One section keeps its token's grants under control exactly when it records nothing or its token is covered. */
  lemma SectionBackground(s: State, s': State, t: TokenId, ty: SecCompType, pc: GrantPc, a: Answer)
    requires TasksInv(s) && BackgroundInv(s) && !pc.Finished? && PcNamed(pc, t)
    requires s'.procs == s.procs && s'.perm == GrantSection(s.perm, t, ty, pc, a).0
    requires s'.lock == s.lock || (!s.lock.Dying? && !s.lock.AppMgrDying? && !s'.lock.Dying? && !s'.lock.AppMgrDying?)
    ensures BackgroundInv(s') <==> (Records(t, ty, pc) ==> Covered(s, t))
  {
    SectionQuiet(s.perm, t, ty, pc, a);
    SectionGrants(s.perm, t, ty, pc, a);
    forall u: TokenId ensures u != t ==>
      TakenBack(s'.procs, s'.perm, u) && GrantedSet(s'.perm, u) == GrantedSet(s.perm, u) {
      assert TakenBack(s.procs, s.perm, u);
      if u != t {
        SectionTouchesOnly(s.perm, t, ty, pc, a, u);
      }
    }
    assert TakenBack(s.procs, s.perm, t);
    assert BackgroundInv(s') ==> TakenBack(s'.procs, s'.perm, t);
    if s.lock.Dying? && OtherForeground(s.procs, t, s.lock.pid) {
      var pid :| pid in s.procs && pid != s.lock.pid && s.procs[pid].token == t && s.procs[pid].foreground;
      assert AnyForeground(s.procs, t);
    }
  }

  lemma ClickGrantBackground(s: State, a: Answer)
    requires TasksInv(s) && BackgroundInv(s) && Enabled(s, ClickGrant(a))
    ensures BackgroundInv(DoClickGrant(s, a)) <==> RecordsCovered(s, ClickGrant(a))
  {
    var e := s.ents[s.lock.scId];
    SectionBackground(s, DoClickGrant(s, a), e.token, e.comp.ty, s.lock.pc, a);
  }

  lemma DialogGrantBackground(s: State, a: Answer)
    requires TasksInv(s) && BackgroundInv(s) && Enabled(s, DialogGrant(a))
    ensures BackgroundInv(DoDialogGrant(s, a)) <==> RecordsCovered(s, DialogGrant(a))
  {
    SectionBackground(s, DoDialogGrant(s, a), s.ents[s.mapLock.scId].token, DialogType(s), s.mapLock.pc, a);
  }

  lemma ForegroundStays(procs: Procs, procs': Procs, t: TokenId)
    requires forall pid :: pid in procs ==> pid in procs' && procs'[pid].token == procs[pid].token
    requires forall pid :: pid in procs && procs[pid].foreground ==> procs'[pid].foreground
    ensures AnyForeground(procs, t) ==> AnyForeground(procs', t)
  {
    if pid :| pid in procs && procs[pid].token == t && procs[pid].foreground {
      assert pid in procs' && procs'[pid].token == t && procs'[pid].foreground;
    }
  }

  /**
   Coming to the foreground leaves no revocation of the token pending, and going to the
   background makes one pending, ten seconds away. Besides that and the process's own flag
   nothing changes, whatever it is given or loses.
   */
  lemma ForegroundAndBackground(s: State, pid: int)
    requires TasksInv(s) && pid in s.procs
    ensures var (t, f, b) := (s.procs[pid].token, DoForeground(s, pid), DoBackground(s, pid));
            && !RevokePending(f.perm, t) && AnyForeground(f.procs, t)
            && f == s.(procs := s.procs[pid := s.procs[pid].(foreground := true)],
                       perm := s.perm.(tasks := f.perm.tasks))
            && b == s.(procs := s.procs[pid := s.procs[pid].(foreground := false)],
                       perm := s.perm.(tasks := s.perm.tasks + [Task("RevokeAll" + Decimal(t), 10_000, RevokeAll(t))]))
            && forall u: TokenId :: u != t ==> (RevokePending(f.perm, u) <==> RevokePending(s.perm, u))
  {
    var t := s.procs[pid].token;
    CancelShapes(s.perm, t);
    PostShapes(s.perm, Task(RevokeAllName(t), DELAY_REVOKE, RevokeAll(t)));
    assert DoForeground(s, pid).procs[pid].foreground;
  }

  /** Steps that change neither grants nor revocations and at most bring processes to the foreground. */
  lemma QuietBackground(s: State, s': State)
    requires BackgroundInv(s) && LockWf(s)
    requires forall t: TokenId :: GrantedSet(s'.perm, t) == GrantedSet(s.perm, t)
    requires forall t: TokenId :: RevokePending(s'.perm, t) <==> RevokePending(s.perm, t)
    requires forall pid :: pid in s.procs ==> pid in s'.procs && s'.procs[pid].token == s.procs[pid].token
    requires forall pid :: pid in s.procs && s.procs[pid].foreground ==> s'.procs[pid].foreground
    requires forall pid :: pid in s'.procs && pid !in s.procs ==> s'.procs[pid].foreground
    requires s'.lock == s.lock || (!s'.lock.Dying? && !s'.lock.AppMgrDying?) || s'.lock.phase == DropWaits ||
             s'.lock.phase == RevokeGrants
    ensures BackgroundInv(s')
  {
    forall t: TokenId ensures TakenBack(s'.procs, s'.perm, t) {
      assert TakenBack(s.procs, s.perm, t);
      if pid :| pid in s.procs && s.procs[pid].token == t && s.procs[pid].foreground {
        assert pid in s'.procs && s'.procs[pid].token == t && s'.procs[pid].foreground;
      }
      if HasProc(s'.procs, t) && !AnyForeground(s'.procs, t) {
        var pid :| pid in s'.procs && s'.procs[pid].token == t;
        assert pid in s.procs;
      }
    }
    if s'.lock == s.lock && s.lock.Dying? && s.lock.pid in s.procs &&
      (s.lock.phase == CancelTask || s.lock.phase == DropSave) {
      var t := s.procs[s.lock.pid].token;
      if pid :| pid in s.procs && pid != s.lock.pid && s.procs[pid].token == t && s.procs[pid].foreground {
        assert pid in s'.procs && pid != s'.lock.pid && s'.procs[pid].token == t && s'.procs[pid].foreground;
      }
    }
    if s'.lock == s.lock && s.lock.AppMgrDying? && s.lock.phase == CancelTask && s.lock.order != [] {
      assert s.lock.order[0] in s.procs;
      ForegroundStays(s.procs, s'.procs, s.procs[s.lock.order[0]].token);
    }
  }

  lemma RevokeNowGrants(p: PermState, t: TokenId, u: TokenId)
    ensures GrantedSet(RevokeNow(p, t), u) == if u == t then {} else GrantedSet(p, u)
  {
  }

  lemma DiedStepBackground(s: State)
    requires Wf(s) && TasksInv(s) && BackgroundInv(s) && Enabled(s, DiedStep)
    ensures BackgroundInv(DoDiedStep(s))
  {
    var s' := DoDiedStep(s);
    var pid, t := s.lock.pid, s.procs[s.lock.pid].token;
    match s.lock.phase {
      case DropWaits => QuietBackground(s, s');
      case RevokeGrants =>
        RevokeNowQuiet(s.perm, t);
        forall u: TokenId ensures TakenBack(s'.procs, s'.perm, u) {
          assert TakenBack(s.procs, s.perm, u);
          RevokeNowGrants(s.perm, t, u);
        }
      case CancelTask =>
        CancelShapes(s.perm, t);
        forall u: TokenId ensures TakenBack(s'.procs, s'.perm, u) {
          assert TakenBack(s.procs, s.perm, u);
          if u == t {
            if p :| p in s.procs && p != pid && s.procs[p].token == t && s.procs[p].foreground {
              assert AnyForeground(s'.procs, t);
            }
          }
        }
      case DropSave =>
        EraseBackground(s);
    }
  }

  lemma EraseBackground(s: State)
    requires Wf(s) && TasksInv(s) && BackgroundInv(s) && Enabled(s, DiedStep) && s.lock.phase == DropSave
    ensures BackgroundInv(DoDiedStep(s))
  {
    var s' := DoDiedStep(s);
    var pid, t := s.lock.pid, s.procs[s.lock.pid].token;
    RevokeSaveAllQuiet(s.perm, t);
    PostShapes(RevokeSaveAll(s.perm, t), EXIT_TASK);
    if OtherForeground(s.procs, t, pid) {
      var p :| p in s.procs && p != pid && s.procs[p].token == t && s.procs[p].foreground;
      assert p in s'.procs && s'.procs[p] == s.procs[p];
    }
    forall u: TokenId ensures TakenBack(s'.procs, s'.perm, u) {
      assert TakenBack(s.procs, s.perm, u);
      if u != t && AnyForeground(s.procs, u) {
        var p :| p in s.procs && s.procs[p].token == u && s.procs[p].foreground;
        assert p in s'.procs && s'.procs[p] == s.procs[p];
      }
      if HasProc(s'.procs, u) {
        var q :| q in s'.procs && s'.procs[q].token == u;
        assert q in s.procs && s.procs[q].token == u;
      }
    }
  }

  lemma ForegroundBackground(s: State, pid: int)
    requires TasksInv(s) && BackgroundInv(s) && s.lock == Free && pid in s.procs
    ensures BackgroundInv(DoForeground(s, pid))
  {
    var s', t := DoForeground(s, pid), s.procs[pid].token;
    CancelShapes(s.perm, t);
    forall u: TokenId ensures TakenBack(s'.procs, s'.perm, u) {
      assert TakenBack(s.procs, s.perm, u);
      if u == t {
        assert pid in s'.procs && s'.procs[pid].token == t && s'.procs[pid].foreground;
      } else {
        if p :| p in s.procs && s.procs[p].token == u && s.procs[p].foreground {
          assert s'.procs[p].foreground;
        }
        if p :| p in s'.procs && s'.procs[p].token == u {
          assert s.procs[p].token == u;
        }
      }
    }
  }

  lemma BackgroundBackground(s: State, pid: int)
    requires TasksInv(s) && BackgroundInv(s) && s.lock == Free && pid in s.procs
    ensures BackgroundInv(DoBackground(s, pid))
  {
    var s', t := DoBackground(s, pid), s.procs[pid].token;
    PostShapes(s.perm, Task(RevokeAllName(t), DELAY_REVOKE, RevokeAll(t)));
    forall u: TokenId ensures TakenBack(s'.procs, s'.perm, u) {
      assert TakenBack(s.procs, s.perm, u);
      if u != t {
        if p :| p in s.procs && s.procs[p].token == u && s.procs[p].foreground {
          assert s'.procs[p].foreground;
        }
        if p :| p in s'.procs && s'.procs[p].token == u {
          assert s.procs[p].token == u;
        }
      }
    }
  }

  lemma FireGrants(s: State, k: nat, u: TokenId)
    requires k < |s.perm.tasks|
    ensures var p' := DoFireTask(s, k).perm;
            GrantedSet(p', u) == if s.perm.tasks[k].callback == RevokeAll(u) then {} else GrantedSet(s.perm, u)
  {
    var started := s.perm.(tasks := RemoveAt(s.perm.tasks, k));
    match s.perm.tasks[k].callback {
      case RevokeAll(t) => RevokeNowGrants(started, t, u);
      case _ =>
    }
  }

  lemma FireTakenBack(s: State, k: nat, u: TokenId)
    requires TasksInv(s) && TakenBack(s.procs, s.perm, u) && k < |s.perm.tasks|
    ensures var s' := DoFireTask(s, k);
            TakenBack(s'.procs, s'.perm, u) && GrantedSet(s'.perm, u) <= GrantedSet(s.perm, u)
  {
    FireQuiet(s, k);
    FireGrants(s, k, u);
  }

  lemma FireBackground(s: State, k: nat)
    requires TasksInv(s) && BackgroundInv(s) && k < |s.perm.tasks|
    ensures BackgroundInv(DoFireTask(s, k))
  {
    var s' := DoFireTask(s, k);
    forall u: TokenId ensures TakenBack(s'.procs, s'.perm, u) && GrantedSet(s'.perm, u) <= GrantedSet(s.perm, u) {
      FireTakenBack(s, k, u);
    }
  }

  lemma AppMgrStepBackground(s: State)
    requires LockWf(s) && TasksInv(s) && BackgroundInv(s) && Enabled(s, AppMgrStep)
    ensures BackgroundInv(DoAppMgrStep(s))
  {
    var s' := DoAppMgrStep(s);
    if s.lock.order != [] {
      var pid := s.lock.order[0];
      var t := s.procs[pid].token;
      match s.lock.phase {
        case CancelTask =>
          CancelShapes(s.perm, t);
          forall u: TokenId ensures TakenBack(s'.procs, s'.perm, u) {
            assert TakenBack(s.procs, s.perm, u);
          }
        case DropSave =>
          RevokeSaveAllQuiet(s.perm, t);
          QuietBackground(s, s');
        case _ => AppMgrRevokeBackground(s);
      }
    }
  }

  lemma AppMgrRevokeBackground(s: State)
    requires LockWf(s) && TasksInv(s) && BackgroundInv(s) && Enabled(s, AppMgrStep)
    requires s.lock.order != [] && s.lock.phase != CancelTask && s.lock.phase != DropSave
    ensures BackgroundInv(DoAppMgrStep(s))
  {
    var s' := DoAppMgrStep(s);
    var t := s.procs[s.lock.order[0]].token;
    RevokeNowQuiet(s.perm, t);
    forall u: TokenId ensures TakenBack(s'.procs, s'.perm, u) {
      assert TakenBack(s.procs, s.perm, u);
      RevokeNowGrants(s.perm, t, u);
      if p :| p in s.procs && s.procs[p].token == u && s.procs[p].foreground {
        assert s'.procs[p].foreground && s'.procs[p].token == u;
      }
      if p :| p in s'.procs && s'.procs[p].token == u {
        assert s.procs[p].token == u;
      }
    }
    RevokeNowGrants(s.perm, t, t);
  }

  lemma RegisterAddBackground(s: State, k: nat)
    requires LockWf(s) && TasksInv(s) && BackgroundInv(s) && Enabled(s, RegisterAdd(k))
    ensures BackgroundInv(DoRegisterAdd(s, k))
  {
    StopExitShapes(s.perm);
    QuietBackground(s, DoRegisterAdd(s, k));
  }

  lemma UnregisterBackground(s: State, scId: int, c: Caller)
    requires LockWf(s) && TasksInv(s) && BackgroundInv(s) && Enabled(s, Unregister(scId, c))
    ensures BackgroundInv(DoUnregister(s, scId, c))
  {
    PostShapes(s.perm, EXIT_TASK);
    QuietBackground(s, DoUnregister(s, scId, c));
  }

  lemma PreRegisterBackground(s: State, c: Caller)
    requires LockWf(s) && TasksInv(s) && BackgroundInv(s)
    ensures BackgroundInv(DoPreRegisterStop(s, c))
  {
    StopExitShapes(s.perm);
    QuietBackground(s, DoPreRegisterStop(s, c));
  }

  lemma SetBitBackground(s: State, k: nat)
    requires LockWf(s) && TasksInv(s) && BackgroundInv(s) && Enabled(s, SetFirstUseBit(k))
    ensures BackgroundInv(DoSetFirstUseBit(s, k))
  {
    PostShapes(s.perm, Task("", 0, SaveRecord));
    QuietBackground(s, DoSetFirstUseBit(s, k));
  }

  lemma CallBackground(s: State, l: Label)
    requires LockWf(s) && TasksInv(s) && BackgroundInv(s) && Enabled(s, l)
    requires l.Register? || l.CallCheck? || l.Update? || l.Click?
    ensures BackgroundInv(Exec(s, l))
  {
    CallShapes(s, l);
    QuietBackground(s, Exec(s, l));
  }

  lemma DialogBackground(s: State, l: Label)
    requires LockWf(s) && BackgroundInv(s) && Enabled(s, l) && (l.ClickNotify? || l.DialogClosed?)
    ensures BackgroundInv(Exec(s, l))
  {
    QuietBackground(s, Exec(s, l));
  }

  lemma DeathBackground(s: State, l: Label)
    requires LockWf(s) && BackgroundInv(s) && Enabled(s, l) && (l.Died? || l.AppMgrDied?)
    ensures BackgroundInv(Exec(s, l))
  {
    QuietBackground(s, Exec(s, l));
  }

  lemma PreRegisterCommitBackground(s: State, k: nat)
    requires LockWf(s) && BackgroundInv(s) && s.lock == Free && k < |s.preRegs|
    ensures BackgroundInv(DoPreRegisterCommit(s, k))
  {
    QuietBackground(s, DoPreRegisterCommit(s, k));
  }

  lemma OtherStepBackground(s: State, l: Label)
    requires Wf(s) && TasksInv(s) && BackgroundInv(s)
    requires Enabled(s, l) && !l.ClickGrant? && !l.DialogGrant?
    ensures BackgroundInv(Exec(s, l))
  {
    if l.Register? || l.CallCheck? || l.Update? || l.Click? {
      CallBackground(s, l);
    } else if l.PreRegisterCommit? {
      PreRegisterCommitBackground(s, l.index);
    } else if l.ClickNotify? || l.DialogClosed? {
      DialogBackground(s, l);
    } else if l.Died? || l.AppMgrDied? {
      DeathBackground(s, l);
    } else if l.RegisterAdd? {
      RegisterAddBackground(s, l.index);
    } else if l.Unregister? {
      UnregisterBackground(s, l.scId, l.caller);
    } else if l.DiedStep? {
      DiedStepBackground(s);
    } else if l.AppMgrStep? {
      AppMgrStepBackground(s);
    } else if l.Foreground? {
      if l.pid in s.procs { ForegroundBackground(s, l.pid); }
    } else if l.Background? {
      if l.pid in s.procs { BackgroundBackground(s, l.pid); }
    } else if l.PreRegisterStop? {
      PreRegisterBackground(s, l.caller);
    } else if l.SetFirstUseBit? {
      SetBitBackground(s, l.index);
    } else {
      FireBackground(s, l.task);
    }
  }

  /** A step keeps grants under control exactly when it records no permission for a token that is not covered. */
  lemma StepBackground(s: State, l: Label)
    requires Wf(s) && TasksInv(s) && BackgroundInv(s) && Enabled(s, l)
    ensures BackgroundInv(Exec(s, l)) <==> RecordsCovered(s, l)
  {
    if l.ClickGrant? {
      ClickGrantBackground(s, l.answer);
    } else if l.DialogGrant? {
      DialogGrantBackground(s, l.answer);
    } else {
      OtherStepBackground(s, l);
    }
  }

  lemma BackgroundAt(states: seq<State>, labels: seq<Label>, i: nat)
    requires RoomyRun(states, labels) && i < |labels| && BackgroundInv(states[i])
    ensures BackgroundInv(states[i + 1]) <==> RecordsCovered(states[i], labels[i])
  {
    assert StepAt(states, labels, i);
    RunWf(states, labels, i);
    RunShapes(states, labels, i);
    StepBackground(states[i], labels[i]);
  }

  lemma {:induction false} RunBackground(states: seq<State>, labels: seq<Label>, n: nat)
    requires RoomyRun(states, labels) && n < |states|
    requires forall i :: 0 <= i < n ==> RecordsCovered(states[i], labels[i])
    ensures BackgroundInv(states[n])
  {
    if n > 0 {
      RunBackground(states, labels, n - 1);
      BackgroundAt(states, labels, n - 1);
    }
  }

  /**
   Over any run grants stay under control exactly when every section that records
   a permission does so for a token that is covered then.
   */
  lemma BackgroundIffCovered(states: seq<State>, labels: seq<Label>, n: nat)
    requires RoomyRun(states, labels) && n < |states|
    ensures (forall i :: 0 <= i <= n ==> BackgroundInv(states[i]))
       <==> (forall i :: 0 <= i < n ==> RecordsCovered(states[i], labels[i]))
  {
    if forall i :: 0 <= i <= n ==> BackgroundInv(states[i]) {
      forall i | 0 <= i < n ensures RecordsCovered(states[i], labels[i]) {
        assert BackgroundInv(states[i]) && BackgroundInv(states[i + 1]);
        BackgroundAt(states, labels, i);
      }
    }
    if forall i :: 0 <= i < n ==> RecordsCovered(states[i], labels[i]) {
      forall i | 0 <= i <= n ensures BackgroundInv(states[i]) {
        RunBackground(states, labels, i);
      }
    }
  }

  /**
   In every run in which permissions are recorded only for covered tokens: a token
   all of whose processes are in the background has a revocation pending or holds
   nothing, however many processes share it.
   */
  lemma BackgroundLosesGrants(states: seq<State>, labels: seq<Label>, n: nat, t: TokenId)
    requires RoomyRun(states, labels) && n < |states|
    requires forall i :: 0 <= i < n ==> RecordsCovered(states[i], labels[i])
    ensures var s := states[n];
            HasProc(s.procs, t) && !AnyForeground(s.procs, t) ==> RevokePending(s.perm, t) || HoldsNothing(s.perm, t)
  {
    RunBackground(states, labels, n);
    RunSafe(states, labels, n);
    var s := states[n];
    assert TakenBack(s.procs, s.perm, t);
    forall p: Permission ensures (t, p) in s.perm.held ==> p in GrantedSet(s.perm, t) {
      var x := (t, p);
      assert x in s.perm.held ==> x.1 in GrantedSet(s.perm, x.0);
    }
  }

  /**
   Why the condition is needed: from any state in which a location component
   waits for its dialog and nothing else is pending, the process can go to the
   background, the revocation can run, and the dialog can close afterwards. The
   token then holds a location permission in the background with nothing to end it.
   */
  lemma DialogClosedInBackground(s: State, sc: int)
    requires WaitingLocation(s, sc)
    ensures var e := s.ents[sc];
            && Enabled(s, Background(e.pid))
            && var s1 := Exec(s, Background(e.pid));
            && Enabled(s1, FireTask(0))
            && var s2 := Exec(s1, FireTask(0));
            && Enabled(s2, DialogClosed(sc, ON_DIALOG_CLOSED))
            && var s3 := Exec(s2, DialogClosed(sc, ON_DIALOG_CLOSED));
            && Enabled(s3, DialogGrant(Answer(SC_OK, false, 0)))
            && var s4 := Exec(s3, DialogGrant(Answer(SC_OK, false, 0)));
            && (e.token, ApproximatelyLocation) in s4.perm.held
            && HasProc(s4.procs, e.token) && !AnyForeground(s4.procs, e.token)
            && s4.perm.tasks == []
  {
    var e := s.ents[sc];
    BackgroundAndRevoked(s, sc);
    var s2 := Exec(Exec(s, Background(e.pid)), FireTask(0));
    DialogGrantsAtOnce(s2, sc);
  }

  ghost predicate WaitingLocation(s: State, sc: int) {
    && !s.saExit && s.lock == Free && s.mapLock == MapFree && s.perm.tasks == []
    && sc in s.dialog.waits && sc in s.ents && s.ents[sc].comp.ty == Location && s.ents[sc].token != INVALID_TOKEN
    && s.ents[sc].pid in s.procs && s.procs[s.ents[sc].pid].token == s.ents[sc].token
    && forall pid :: pid in s.procs && s.procs[pid].token == s.ents[sc].token ==> pid == s.ents[sc].pid
  }

  lemma BackgroundAndRevoked(s: State, sc: int)
    requires WaitingLocation(s, sc)
    ensures var e := s.ents[sc];
            && Enabled(s, Background(e.pid))
            && var s1 := Exec(s, Background(e.pid));
            && Enabled(s1, FireTask(0))
            && var s2 := Exec(s1, FireTask(0));
            WaitingLocation(s2, sc) && s2.ents == s.ents && !AnyForeground(s2.procs, e.token)
  {
  }

  lemma DialogGrantsAtOnce(s: State, sc: int)
    requires WaitingLocation(s, sc) && !AnyForeground(s.procs, s.ents[sc].token)
    ensures && Enabled(s, DialogClosed(sc, ON_DIALOG_CLOSED))
            && var s1 := Exec(s, DialogClosed(sc, ON_DIALOG_CLOSED));
            && Enabled(s1, DialogGrant(Answer(SC_OK, false, 0)))
            && var s2 := Exec(s1, DialogGrant(Answer(SC_OK, false, 0)));
            && (s.ents[sc].token, ApproximatelyLocation) in s2.perm.held
            && HasProc(s2.procs, s.ents[sc].token) && !AnyForeground(s2.procs, s.ents[sc].token)
            && s2.perm.tasks == []
  {
  }
}
