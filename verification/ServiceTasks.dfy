/** What kinds of task are pending, and that removing tasks by name never hits another kind. */
module ServiceTasks {
  import opened Types
  import opened TaskNames
  import opened EventHandler
  import opened PermManager
  import opened Entity
  import opened FirstUseDialog
  import opened Registry
  import opened Service

  /** A task's callback decides its delay and its name; a save task carries the name of its own token. */
  ghost predicate TaskShape(task: Task) {
    match task.callback
    case RevokeAll(t) => task.name == "RevokeAll" + Decimal(t) && task.delay == 10_000
    case RevokeSaveCount(t) =>
      && (exists clock: nat :: task.name == Decimal(t) + Decimal(clock)) && SaveNameOf(task.name, t)
      && task.delay == 60_000
    case ExitSa => task.name == "DelayExitTask" && task.delay == 120_000
    case SaveRecord => task.name == "" && task.delay == 0
  }

  ghost predicate TasksShaped(p: PermState) {
    forall task :: task in p.tasks ==> TaskShape(task)
  }

  ghost predicate NamesQueued(p: PermState) {
    forall t, n :: t in p.deques && n in p.deques[t] ==> SaveNameOf(n, t)
  }

  ghost predicate QueueInv(p: PermState) {
    TasksShaped(p) && NamesQueued(p)
  }

  ghost predicate PcNamed(pc: GrantPc, t: TokenId) {
    pc.NeedPush? ==> SaveNameOf(pc.name, t)
  }

  ghost predicate TasksInv(s: State) {
    && QueueInv(s.perm)
    && (s.lock.Granting? && s.lock.scId in s.ents ==> PcNamed(s.lock.pc, s.ents[s.lock.scId].token))
    && (s.mapLock.DialogGranting? && s.mapLock.scId in s.ents ==> PcNamed(s.mapLock.pc, s.ents[s.mapLock.scId].token))
  }

  predicate RevokePending(p: PermState, t: TokenId) {
    exists task :: task in p.tasks && task.callback == RevokeAll(t)
  }

  predicate ExitPending(p: PermState) {
    exists task :: task in p.tasks && task.callback == ExitSa
  }

  /** Names that belong to save tasks. */
  ghost predicate SaveOnly(names: set<string>) {
    forall n :: n in names ==> StartsWithDigit(n)
  }

  lemma ShapesApart(t: TokenId, u: TokenId)
    ensures !StartsWithDigit(RevokeAllName(t)) && !StartsWithDigit(DELAY_EXIT_NAME)
    ensures RevokeAllName(t) != DELAY_EXIT_NAME
    ensures RevokeAllName(t) == RevokeAllName(u) ==> t == u
  {
    NamesApart(t, 0, u);
    NamesApart(u, 0, t);
  }

  /** Removing tasks by name keeps the shapes, and every pending task with another name. */
  lemma WithoutShapes(p: PermState, names: set<string>)
    requires TasksShaped(p)
    ensures var p' := p.(tasks := Without(p.tasks, names));
            && TasksShaped(p')
            && (forall t: TokenId :: RevokeAllName(t) !in names ==> RevokePending(p', t) == RevokePending(p, t))
            && (DELAY_EXIT_NAME !in names ==> ExitPending(p') == ExitPending(p))
  {
    var p' := p.(tasks := Without(p.tasks, names));
    forall task ensures task in p'.tasks <==> task in p.tasks && task.name !in names {
      WithoutMember(p.tasks, names, task);
    }
  }

  lemma SaveRemovalQuiet(p: PermState, names: set<string>)
    requires TasksShaped(p) && SaveOnly(names)
    ensures var p' := p.(tasks := Without(p.tasks, names));
            && TasksShaped(p') && ExitPending(p') == ExitPending(p)
            && forall t: TokenId :: RevokePending(p', t) == RevokePending(p, t)
  {
    WithoutShapes(p, names);
    forall t: TokenId ensures RevokeAllName(t) !in names && DELAY_EXIT_NAME !in names {
      ShapesApart(t, t);
    }
  }

  /** The save counter never touches tasks of another kind. */
  ghost predicate SameOtherTasks(p: PermState, p': PermState) {
    (ExitPending(p') <==> ExitPending(p)) && forall t: TokenId :: RevokePending(p', t) <==> RevokePending(p, t)
  }

  lemma RevokeSaveOnceQuiet(p: PermState, t: TokenId)
    requires QueueInv(p)
    ensures QueueInv(RevokeSaveOnce(p, t)) && SameOtherTasks(p, RevokeSaveOnce(p, t))
  {
    if t in p.counts && DequeOf(p, t) != [] {
      assert p.deques[t][0] in p.deques[t];
      SaveNameStarts(p.deques[t][0], t);
      SaveRemovalQuiet(p, {p.deques[t][0]});
      var p' := RevokeSaveOnce(p, t);
      assert p'.tasks == p.(tasks := Without(p.tasks, {p.deques[t][0]})).tasks;
    }
  }

  lemma RevokeSaveAllQuiet(p: PermState, t: TokenId)
    requires QueueInv(p)
    ensures QueueInv(RevokeSaveAll(p, t)) && SameOtherTasks(p, RevokeSaveAll(p, t))
  {
    forall n | n in DequeOf(p, t) ensures StartsWithDigit(n) {
      SaveNameStarts(n, t);
    }
    SaveRemovalQuiet(p, ElementsOf(DequeOf(p, t)));
    var p' := RevokeSaveAll(p, t);
    assert p'.tasks == p.(tasks := Without(p.tasks, ElementsOf(DequeOf(p, t)))).tasks;
  }

  lemma SectionQuiet(p: PermState, t: TokenId, ty: SecCompType, pc: GrantPc, a: Answer)
    requires QueueInv(p) && !pc.Finished? && PcNamed(pc, t)
    ensures var (p', pc') := GrantSection(p, t, ty, pc, a);
            QueueInv(p') && PcNamed(pc', t) && SameOtherTasks(p, p')
  {
    assert SaveNameOf(SaveTaskName(t, a.clock), t);
  }

  lemma CancelShapes(p: PermState, t: TokenId)
    requires QueueInv(p)
    ensures var p' := CancelRevokeAll(p, t);
            && QueueInv(p') && (ExitPending(p') <==> ExitPending(p)) && !RevokePending(p', t)
            && forall u: TokenId :: u != t ==> (RevokePending(p', u) <==> RevokePending(p, u))
  {
    WithoutShapes(p, {RevokeAllName(t)});
    ShapesApart(t, t);
    forall u: TokenId | u != t ensures RevokeAllName(u) !in {RevokeAllName(t)} {
      ShapesApart(t, u);
    }
    forall task ensures task in CancelRevokeAll(p, t).tasks <==> task in p.tasks && task.name != RevokeAllName(t) {
      WithoutMember(p.tasks, {RevokeAllName(t)}, task);
    }
  }

  lemma StopExitShapes(p: PermState)
    requires QueueInv(p)
    ensures QueueInv(StopExit(p)) && !ExitPending(StopExit(p))
    ensures forall t: TokenId :: RevokePending(StopExit(p), t) <==> RevokePending(p, t)
  {
    WithoutShapes(p, {DELAY_EXIT_NAME});
    forall t: TokenId ensures RevokeAllName(t) !in {DELAY_EXIT_NAME} {
      ShapesApart(t, t);
    }
    forall task ensures task in StopExit(p).tasks <==> task in p.tasks && task.name != DELAY_EXIT_NAME {
      WithoutMember(p.tasks, {DELAY_EXIT_NAME}, task);
    }
  }

  lemma PostShapes(p: PermState, task: Task)
    requires QueueInv(p) && TaskShape(task)
    ensures var p' := p.(tasks := p.tasks + [task]);
            && QueueInv(p') && (ExitPending(p') <==> ExitPending(p) || task.callback == ExitSa)
            && forall t: TokenId :: RevokePending(p', t) <==> RevokePending(p, t) || task.callback == RevokeAll(t)
  {
  }

  lemma StartTaskShapes(p: PermState, k: nat)
    requires QueueInv(p) && k < |p.tasks|
    ensures var p' := p.(tasks := RemoveAt(p.tasks, k));
            && QueueInv(p')
            && (p.tasks[k].callback != ExitSa ==> (ExitPending(p') <==> ExitPending(p)))
            && forall t: TokenId :: p.tasks[k].callback != RevokeAll(t) ==>
                 (RevokePending(p', t) <==> RevokePending(p, t))
  {
  }

  lemma RevokeNowQuiet(p: PermState, t: TokenId)
    requires QueueInv(p)
    ensures QueueInv(RevokeNow(p, t)) && SameOtherTasks(p, RevokeNow(p, t))
  {
  }

  lemma FireQuiet(s: State, k: nat)
    requires QueueInv(s.perm) && k < |s.perm.tasks|
    ensures var p, p' := s.perm, DoFireTask(s, k).perm;
            && QueueInv(p')
            && (p.tasks[k].callback != ExitSa ==> (ExitPending(p') <==> ExitPending(p)))
            && forall t: TokenId :: p.tasks[k].callback != RevokeAll(t) ==>
                 (RevokePending(p', t) <==> RevokePending(p, t))
  {
    StartTaskShapes(s.perm, k);
    var started := s.perm.(tasks := RemoveAt(s.perm.tasks, k));
    match s.perm.tasks[k].callback {
      case RevokeAll(t) => RevokeNowQuiet(started, t);
      case RevokeSaveCount(t) => RevokeSaveOnceQuiet(started, t);
      case _ =>
    }
  }

  lemma AppMgrStepShapes(s: State)
    requires TasksInv(s) && Enabled(s, AppMgrStep)
    ensures TasksInv(DoAppMgrStep(s)) && (ExitPending(DoAppMgrStep(s).perm) <==> ExitPending(s.perm))
  {
    if s.lock.order != [] {
      var t := s.procs[s.lock.order[0]].token;
      match s.lock.phase {
        case CancelTask => CancelShapes(s.perm, t);
        case DropSave => RevokeSaveAllQuiet(s.perm, t);
        case _ => RevokeNowQuiet(s.perm, t);
      }
    }
  }

  lemma DiedStepShapes(s: State)
    requires TasksInv(s) && Enabled(s, DiedStep)
    ensures TasksInv(DoDiedStep(s))
  {
    var t := s.procs[s.lock.pid].token;
    match s.lock.phase {
      case DropWaits =>
      case RevokeGrants => RevokeNowQuiet(s.perm, t);
      case CancelTask => CancelShapes(s.perm, t);
      case DropSave =>
        RevokeSaveAllQuiet(s.perm, t);
        PostShapes(RevokeSaveAll(s.perm, t), EXIT_TASK);
    }
  }

  /** Steps that touch neither permissions nor tasks. */
  predicate KeepsPerm(l: Label) {
    || l.Register? || l.CallCheck? || l.Update? || l.Click? || l.ClickNotify?
    || l.Died? || l.AppMgrDied? || l.PreRegisterCommit? || l.DialogClosed?
  }

  /** A step keeps the shapes if it keeps those of the tasks, and the grants under way. */
  lemma KeepsShapes(s: State, s': State)
    requires TasksInv(s) && QueueInv(s'.perm)
    requires s'.lock.Granting? && !s'.lock.pc.Begin? && s'.lock.scId in s'.ents ==>
               s'.lock == s.lock && s.lock.scId in s.ents && s'.ents[s.lock.scId].token == s.ents[s.lock.scId].token
    requires s'.mapLock.DialogGranting? && !s'.mapLock.pc.Begin? && s'.mapLock.scId in s'.ents ==>
               && s'.mapLock == s.mapLock && s.mapLock.scId in s.ents
               && s'.ents[s.mapLock.scId].token == s.ents[s.mapLock.scId].token
    ensures TasksInv(s')
  {
  }

  lemma UpdateShapes(s: State, scId: int, c: Caller, r: ReportInput)
    requires TasksInv(s)
    ensures TasksInv(DoUpdate(s, scId, c, r)) && DoUpdate(s, scId, c, r).perm == s.perm
  {
    KeepsShapes(s, DoUpdate(s, scId, c, r));
  }

  lemma ClickShapes(s: State, scId: int, c: Caller, input: ClickInput)
    requires TasksInv(s) && s.lock == Free
    ensures TasksInv(DoClick(s, scId, c, input)) && DoClick(s, scId, c, input).perm == s.perm
  {
    if scId in s.ents {
      ClickKeepsIdentity(s.ents[scId], input, s.foldOffset);
    }
    KeepsShapes(s, DoClick(s, scId, c, input));
  }

  lemma CallShapes(s: State, l: Label)
    requires TasksInv(s) && Enabled(s, l) && (l.Register? || l.CallCheck? || l.Update? || l.Click?)
    ensures TasksInv(Exec(s, l)) && Exec(s, l).perm == s.perm
  {
    if l.Update? {
      UpdateShapes(DropCall(s, l.index), s.passed[l.index].scId, s.passed[l.index].caller, s.passed[l.index].report);
    } else if l.Click? {
      ClickShapes(DropCall(s, l.index), s.passed[l.index].scId, s.passed[l.index].caller, s.passed[l.index].click);
    }
  }

  lemma SamePermShapes(s: State, l: Label)
    requires TasksInv(s) && Enabled(s, l) && KeepsPerm(l)
    ensures TasksInv(Exec(s, l)) && Exec(s, l).perm == s.perm
  {
    if l.Register? || l.CallCheck? || l.Update? || l.Click? {
      CallShapes(s, l);
    } else {
      KeepsShapes(s, Exec(s, l));
    }
  }

  lemma ClickGrantShapes(s: State, a: Answer)
    requires TasksInv(s) && Enabled(s, ClickGrant(a))
    ensures TasksInv(DoClickGrant(s, a)) && SameOtherTasks(s.perm, DoClickGrant(s, a).perm)
  {
    var e := s.ents[s.lock.scId];
    SectionQuiet(s.perm, e.token, e.comp.ty, s.lock.pc, a);
  }

  lemma DialogGrantShapes(s: State, a: Answer)
    requires TasksInv(s) && Enabled(s, DialogGrant(a))
    ensures TasksInv(DoDialogGrant(s, a)) && SameOtherTasks(s.perm, DoDialogGrant(s, a).perm)
  {
    SectionQuiet(s.perm, s.ents[s.mapLock.scId].token, DialogType(s), s.mapLock.pc, a);
  }

  /** A registration takes the exit task back and never gets the id of a component that is being granted. */
  lemma RegisterAddShapes(s: State, k: nat)
    requires Wf(s) && TasksInv(s) && Enabled(s, RegisterAdd(k))
    ensures TasksInv(DoRegisterAdd(s, k))
  {
    StopExitShapes(s.perm);
    assert StartingIdFree(s, s.starting[k].id);
    KeepsShapes(s, DoRegisterAdd(s, k));
  }

  lemma UnregisterShapes(s: State, scId: int, c: Caller)
    requires TasksInv(s)
    ensures TasksInv(DoUnregister(s, scId, c))
  {
    PostShapes(s.perm, EXIT_TASK);
  }

  lemma BackgroundShapes(s: State, pid: int)
    requires TasksInv(s)
    ensures TasksInv(DoBackground(s, pid))
  {
    if pid in s.procs {
      var t := s.procs[pid].token;
      PostShapes(s.perm, Task(RevokeAllName(t), DELAY_REVOKE, RevokeAll(t)));
    }
  }

  lemma SetBitShapes(s: State, k: nat)
    requires TasksInv(s) && Enabled(s, SetFirstUseBit(k))
    ensures TasksInv(DoSetFirstUseBit(s, k))
  {
    PostShapes(s.perm, Task("", 0, SaveRecord));
    KeepsShapes(s, DoSetFirstUseBit(s, k));
  }

  lemma RemovedShapes(s: State, l: Label)
    requires TasksInv(s) && Enabled(s, l)
    requires l.Foreground? || l.PreRegisterStop? || l.FireTask?
    ensures TasksInv(Exec(s, l))
  {
    match l {
      case Foreground(pid) => if pid in s.procs { CancelShapes(s.perm, s.procs[pid].token); }
      case PreRegisterStop(_) => StopExitShapes(s.perm);
      case FireTask(k) => FireQuiet(s, k);
    }
    KeepsShapes(s, Exec(s, l));
  }

  lemma StepShapes(s: State, l: Label)
    requires Wf(s) && TasksInv(s) && Enabled(s, l)
    ensures TasksInv(Exec(s, l))
  {
    if KeepsPerm(l) {
      SamePermShapes(s, l);
    } else if l.Foreground? || l.PreRegisterStop? || l.FireTask? {
      RemovedShapes(s, l);
    } else {
      match l {
        case RegisterAdd(k) => RegisterAddShapes(s, k);
        case ClickGrant(a) => ClickGrantShapes(s, a);
        case DialogGrant(a) => DialogGrantShapes(s, a);
        case DiedStep => DiedStepShapes(s);
        case AppMgrStep => AppMgrStepShapes(s);
        case Unregister(scId, c) => UnregisterShapes(s, scId, c);
        case Background(pid) => BackgroundShapes(s, pid);
        case SetFirstUseBit(k) => SetBitShapes(s, k);
      }
    }
  }

  lemma InitShapes(s: State)
    requires Init(s)
    ensures TasksInv(s)
  {
  }

  lemma ShapesAt(states: seq<State>, labels: seq<Label>, i: nat)
    requires RoomyRun(states, labels) && i < |labels| && TasksInv(states[i])
    ensures TasksInv(states[i + 1])
  {
    RunWf(states, labels, i);
    assert StepAt(states, labels, i);
    StepShapes(states[i], labels[i]);
  }

  lemma {:induction false} RunShapes(states: seq<State>, labels: seq<Label>, n: nat)
    requires RoomyRun(states, labels) && n < |states|
    ensures TasksInv(states[n])
  {
    if n == 0 {
      InitShapes(states[0]);
    } else {
      RunShapes(states, labels, n - 1);
      ShapesAt(states, labels, n - 1);
    }
  }
}
