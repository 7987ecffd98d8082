/**
 The permission service as one state machine. Every section that runs under one
 mutex is one step, so the steps of a click, a closing dialog and a dying process
 interleave as the two outer locks let them.
 */
module Service {
  import opened Types
  import opened TaskNames
  import opened EventHandler
  import opened PermManager
  import opened Entity
  import opened FirstUseDialog
  import opened Registry
  import Mal = MaliciousApps

  /**
   Sections of a process's death, all under the component lock. The application
   manager's death goes through the last three for one process after the other.
   */
  datatype DeathPhase = DropWaits | RevokeGrants | CancelTask | DropSave

  /** Who holds componentInfoLock_ between two steps. */
  datatype Lock =
    | Free
    | Notifying(scId: int)
    | Granting(scId: int, pc: GrantPc)
    | Dying(pid: int, phase: DeathPhase)
    | AppMgrDying(order: seq<int>, phase: DeathPhase)

  /** Who holds useMapMutex_ between two steps. A grant reads the component's type, `ty`, when it begins. */
  datatype MapLock = MapFree | DialogGranting(scId: int, pc: GrantPc, ty: SecCompType)

  datatype Caller = Caller(pid: int, uid: int, token: TokenId)

  /**
   What an observer sees: accepted clicks with the type that was clicked, dialogs
   with the type they were shown for, grants after a dialog with the type that was
   granted, save bits with both, and clicks that needed no dialog.
   */
  datatype Observed =
    | Clicked(scId: int, ty: SecCompType)
    | DialogInserted(scId: int, token: TokenId, ty: SecCompType)
    | DialogAttempt(scId: int)
    | DialogOk(scId: int, token: TokenId, ty: SecCompType)
    | BitSet(scId: int, token: TokenId, shown: SecCompType, granted: SecCompType)
    | WithoutDialog(scId: int, token: TokenId, ty: SecCompType)

  /** A dialog that was closed and granted, whose first-use bit is still to be set. */
  datatype Closing = Closing(scId: int, shown: SecCompType, granted: SecCompType)

  /** A call that is past the check of the malicious list and waits for the component lock. */
  datatype Call =
    | UpdateCall(scId: int, caller: Caller, report: ReportInput)
    | ClickCall(scId: int, caller: Caller, click: ClickInput)

  /** A registration that has its id and is not in the register yet. */
  datatype Starting = Starting(caller: Caller, id: int, report: Component, customAuthorized: bool)

  /**
   `ents` are the component objects by id; an object outlives its place in the
   register while a dialog waits on it. `shown` remembers the type the last dialog
   of each component was shown for.
   */
  datatype State = State(
    procs: Procs,
    nextStart: int,
    saExit: bool,
    foldOffset: int,
    ents: map<int, EntityView>,
    perm: PermState,
    dialog: DialogState,
    mal: Mal.MalState,
    lock: Lock,
    mapLock: MapLock,
    closing: seq<Closing>,
    shown: map<int, SecCompType>,
    starting: seq<Starting>,
    passed: seq<Call>,
    preRegs: seq<Caller>,
    log: seq<Observed>)

  /** Parsing and the enhanced check of a registered or updated component. */
  datatype ReportInput = ReportInput(report: Option<Component>, enhanceRes: int, customAuthorized: bool)

  datatype Label =
    | Register(caller: Caller, report: ReportInput)
    | RegisterAdd(index: nat)
    | CallCheck(call: Call)
    | Update(index: nat)
    | Unregister(scId: int, caller: Caller)
    | Click(index: nat)
    | ClickNotify(dialogAnswer: DialogAnswer)
    | ClickGrant(answer: Answer)
    | Died(pid: int, cached: bool)
    | DiedStep
    | AppMgrDied(order: seq<int>)
    | AppMgrStep
    | Foreground(pid: int)
    | Background(pid: int)
    | PreRegisterStop(caller: Caller)
    | PreRegisterCommit(index: nat)
    | DialogClosed(scId: int, result: int)
    | DialogGrant(answer: Answer)
    | SetFirstUseBit(index: nat)
    | FireTask(task: nat)

  const REPORT_REMOTE_OBJECT_SIZE := 2

  const EXIT_TASK := Task(DELAY_EXIT_NAME, DELAY_EXIT, ExitSa)

  ghost predicate Init(s: State) {
    && s.procs == map[] && s.nextStart == SC_ID_START && !s.saExit && s.foldOffset == 0 && s.ents == map[]
    && s.perm == PermState(map[], map[], map[], {}, [EXIT_TASK])
    && s.dialog.waits == map[] && s.mal == Mal.MalState(map[], {})
    && s.lock == Free && s.mapLock == MapFree && s.closing == [] && s.shown == map[]
    && s.starting == [] && s.passed == [] && s.preRegs == [] && s.log == []
  }

  function StopExit(p: PermState): PermState {
    p.(tasks := Without(p.tasks, {DELAY_EXIT_NAME}))
  }

  function StartExit(p: PermState): PermState {
    p.(tasks := p.tasks + [EXIT_TASK])
  }

  /** The id the next registration will use. */
  function FreshId(s: State): int {
    FirstFree(s.nextStart, LiveIds(s.procs))
  }

  function OwnerOfEntity(e: EntityView): Owner {
    Owner(e.pid, e.token)
  }

  predicate NotClosing(s: State, id: int) {
    forall k :: 0 <= k < |s.closing| ==> s.closing[k].scId != id
  }

  /** Nothing but the register may still refer to the id. */
  predicate IdUnused(s: State, id: int) {
    && id !in s.dialog.waits && NotClosing(s, id)
    && forall k :: 0 <= k < |s.starting| ==> s.starting[k].id != id
  }

  /** A walk over the register meets every process. */
  predicate ListsProcs(order: seq<int>, procs: Procs) {
    (forall i :: 0 <= i < |order| ==> order[i] in procs) && forall pid :: pid in procs ==> pid in order
  }

  predicate InFlight(s: State, name: string) {
    || (s.lock.Granting? && s.lock.pc == NeedPush(name))
    || (s.mapLock.DialogGranting? && s.mapLock.pc == NeedPush(name))
  }

  /**
   When a step can happen. Besides the locks: a live process always calls with
   the same token, an id is not handed out again while a dialog or another
   registration still refers to it, and a save task runs a minute after it was
   posted, so its name is queued by then.
   */
  predicate Enabled(s: State, l: Label) {
    match l
    case Register(_, _) => s.lock == Free && IdUnused(s, FreshId(s))
    case RegisterAdd(k) =>
      && s.lock == Free && k < |s.starting|
      && var c := s.starting[k].caller; (c.pid in s.procs ==> s.procs[c.pid].token == c.token)
    case CallCheck(_) => true
    case Update(k) => s.lock == Free && k < |s.passed| && s.passed[k].UpdateCall?
    case Unregister(_, _) => s.lock == Free
    case Click(k) => s.lock == Free && k < |s.passed| && s.passed[k].ClickCall?
    case ClickNotify(_) => s.lock.Notifying? && s.lock.scId in s.ents && s.mapLock == MapFree
    case ClickGrant(_) => s.lock.Granting? && s.lock.scId in s.ents && !s.lock.pc.Finished?
    case Died(_, _) => s.lock == Free
    case DiedStep => s.lock.Dying? && s.lock.pid in s.procs && (s.lock.phase == DropWaits ==> s.mapLock == MapFree)
    case AppMgrDied(order) => s.lock == Free && ListsProcs(order, s.procs)
    case AppMgrStep => s.lock.AppMgrDying? && forall i :: 0 <= i < |s.lock.order| ==> s.lock.order[i] in s.procs
    case Foreground(_) => s.lock == Free
    case Background(_) => s.lock == Free
    case PreRegisterStop(_) => true
    case PreRegisterCommit(k) => s.lock == Free && k < |s.preRegs|
    case DialogClosed(_, _) => s.mapLock == MapFree
    case DialogGrant(_) => s.mapLock.DialogGranting? && s.mapLock.scId in s.ents && !s.mapLock.pc.Finished?
    case SetFirstUseBit(k) => s.mapLock == MapFree && k < |s.closing| && s.closing[k].scId in s.ents
    case FireTask(k) =>
      && CanFire(s.perm.tasks, k)
      && (s.perm.tasks[k].callback.ExitSa? ==> s.lock == Free)
      && (s.perm.tasks[k].callback.RevokeSaveCount? ==> !InFlight(s, s.perm.tasks[k].name))
  }

  /** The checks and the new id; the component is put into the register under the lock afterwards. */
  function DoRegister(s: State, c: Caller, r: ReportInput): State {
    if Mal.Blocked(s.mal, c.pid, c.uid) || r.report.None? then s
    else if r.enhanceRes != SC_OK then s.(mal := Mal.Add(s.mal, c.pid))
    else
      var id := FreshId(s);
      s.(mal := Mal.Reset(s.mal, c.pid), nextStart := id,
         starting := s.starting + [Starting(c, id, r.report.value, r.customAuthorized)])
  }

  function DoRegisterAdd(s: State, k: nat): State
    requires k < |s.starting|
  {
    var Starting(c, id, report, customAuthorized) := s.starting[k];
    var (procs, res) := AddComponent(s.procs, s.saExit, c.pid, c.token, id);
    var s1 := s.(starting := s.starting[..k] + s.starting[k + 1..]);
    if res != SC_OK then s1
    else s1.(procs := procs,
             ents := s.ents[id := EntityView(id, c.pid, c.token, report, customAuthorized, false, false)],
             perm := StopExit(s.perm))
  }

  /** An update or a click looks at the malicious list before it waits for the component lock. */
  function DoCallCheck(s: State, call: Call): State {
    if call.ClickCall? && call.click.remotes < REPORT_REMOTE_OBJECT_SIZE then s
    else if Mal.Blocked(s.mal, call.caller.pid, call.caller.uid) then s
    else s.(passed := s.passed + [call])
  }

  function DropCall(s: State, k: nat): State
    requires k < |s.passed|
  {
    s.(passed := s.passed[..k] + s.passed[k + 1..])
  }

  function DoUpdate(s: State, scId: int, c: Caller, r: ReportInput): State {
    if !HasComponent(s.procs, c.pid, scId) || scId !in s.ents || r.report.None? then s
    else if r.enhanceRes != SC_OK then s.(mal := Mal.Add(s.mal, c.pid))
    else s.(mal := Mal.Reset(s.mal, c.pid), ents := s.ents[scId := s.ents[scId].(comp := r.report.value)])
  }

  function DoUnregister(s: State, scId: int, c: Caller): State {
    if scId < 0 then s
    else
      var (procs, res) := DeleteComponent(s.procs, c.pid, scId);
      if res != SC_OK then s else s.(procs := procs, perm := StartExit(s.perm))
  }

  function MalAfter(m: Mal.MalState, pid: int, count: FailCount): Mal.MalState {
    match count
    case CountUnchanged => m
    case CountReset => Mal.Reset(m, pid)
    case CountResetThenAdded => Mal.Add(Mal.Reset(m, pid), pid)
    case CountAdded => Mal.Add(m, pid)
  }

  function DoClick(s: State, scId: int, c: Caller, input: ClickInput): State {
    if !HasComponent(s.procs, c.pid, scId) || scId !in s.ents then s
    else
      var v := JudgeClick(s.ents[scId], input, s.foldOffset);
      s.(ents := s.ents[scId := v.entity], foldOffset := v.offset, mal := MalAfter(s.mal, c.pid, v.count),
         lock := if v.accepted then Notifying(scId) else Free,
         log := s.log + if v.accepted then [Clicked(scId, v.entity.comp.ty)] else [])
  }

  function DoNotify(s: State, a: DialogAnswer): State
    requires s.lock.Notifying? && s.lock.scId in s.ents
  {
    var scId := s.lock.scId;
    var e := s.ents[scId];
    var (dialog, res) := Notify(s.dialog, scId, OwnerOfEntity(e), e.comp.ty, a);
    s.(dialog := dialog,
       lock := if res == SC_OK then Granting(scId, Begin) else Free,
       shown := if res == SC_OK || res == SC_SERVICE_ERROR_VALUE_INVALID then s.shown else s.shown[scId := e.comp.ty],
       log := s.log + (if res == SC_OK then [WithoutDialog(scId, e.token, e.comp.ty)]
                       else if res == SC_SERVICE_ERROR_VALUE_INVALID then []
                       else [DialogInserted(scId, e.token, e.comp.ty)]))
  }

  function DoClickGrant(s: State, a: Answer): State
    requires s.lock.Granting? && s.lock.scId in s.ents && !s.lock.pc.Finished?
  {
    var scId := s.lock.scId;
    var e := s.ents[scId];
    var (perm, pc) := GrantSection(s.perm, e.token, e.comp.ty, s.lock.pc, a);
    s.(perm := perm, ents := s.ents[scId := e.(isGrant := true)],
       lock := if pc.Finished? then Free else Granting(scId, pc))
  }

  function DoDied(s: State, pid: int, cached: bool): State {
    var s1 := if cached then s else s.(mal := Mal.Remove(s.mal, pid));
    if pid in s.procs then s1.(lock := Dying(pid, DropWaits)) else s1
  }

  function DoDiedStep(s: State): State
    requires s.lock.Dying? && s.lock.pid in s.procs
  {
    var pid := s.lock.pid;
    var token := s.procs[pid].token;
    match s.lock.phase
    case DropWaits =>
      s.(dialog := RemoveWaits(s.dialog, pid), procs := s.procs[pid := s.procs[pid].(comps := [])],
         lock := Dying(pid, RevokeGrants))
    case RevokeGrants => s.(perm := RevokeNow(s.perm, token), lock := Dying(pid, CancelTask))
    case CancelTask => s.(perm := CancelRevokeAll(s.perm, token), lock := Dying(pid, DropSave))
    case DropSave => s.(perm := StartExit(RevokeSaveAll(s.perm, token)), procs := s.procs - {pid}, lock := Free)
  }

  function DoAppMgrDied(s: State, order: seq<int>): State {
    s.(lock := AppMgrDying(order, RevokeGrants))
  }

  /** One section for the next process in the walk; when none is left the register is emptied and the service exits. */
  function DoAppMgrStep(s: State): State
    requires s.lock.AppMgrDying? && forall i :: 0 <= i < |s.lock.order| ==> s.lock.order[i] in s.procs
  {
    var AppMgrDying(order, phase) := s.lock;
    if order == [] then s.(procs := map[], saExit := true, lock := Free)
    else
      var pid := order[0];
      var token := s.procs[pid].token;
      match phase
      case CancelTask => s.(perm := CancelRevokeAll(s.perm, token), lock := AppMgrDying(order, DropSave))
      case DropSave => s.(perm := RevokeSaveAll(s.perm, token), lock := AppMgrDying(order[1..], RevokeGrants))
      case _ =>
        s.(perm := RevokeNow(s.perm, token), procs := s.procs[pid := s.procs[pid].(comps := [])],
           lock := AppMgrDying(order, CancelTask))
  }

  function DoForeground(s: State, pid: int): State {
    if pid !in s.procs then s
    else s.(perm := CancelRevokeAll(s.perm, s.procs[pid].token),
      procs := s.procs[pid := s.procs[pid].(foreground := true)])
  }

  function DoBackground(s: State, pid: int): State {
    if pid !in s.procs then s
    else s.(perm := PostRevokeAll(s.perm, s.procs[pid].token),
      procs := s.procs[pid := s.procs[pid].(foreground := false)])
  }

  function DoPreRegisterStop(s: State, c: Caller): State {
    s.(perm := StopExit(s.perm), preRegs := s.preRegs + [c])
  }

  function DoPreRegisterCommit(s: State, k: nat): State
    requires k < |s.preRegs|
  {
    var c := s.preRegs[k];
    s.(preRegs := s.preRegs[..k] + s.preRegs[k + 1..],
       procs := if s.saExit || c.pid in s.procs then s.procs else s.procs[c.pid := Proc([], true, c.token)])
  }

  function DoDialogClosed(s: State, scId: int, result: int): State {
    if result != ON_DIALOG_CLOSED || scId !in s.dialog.waits then s
    else s.(mapLock := DialogGranting(scId, Begin, Unknown), log := s.log + [DialogAttempt(scId)])
  }

  /** The type a section of the grant after a dialog goes by. */
  function DialogType(s: State): SecCompType
    requires s.mapLock.DialogGranting? && s.mapLock.scId in s.ents
  {
    if s.mapLock.pc.Begin? then s.ents[s.mapLock.scId].comp.ty else s.mapLock.ty
  }

  function ShownType(s: State, scId: int): SecCompType {
    if scId in s.shown then s.shown[scId] else Unknown
  }

  function DoDialogGrant(s: State, a: Answer): State
    requires s.mapLock.DialogGranting? && s.mapLock.scId in s.ents && !s.mapLock.pc.Finished?
  {
    var (scId, ty) := (s.mapLock.scId, DialogType(s));
    var e := s.ents[scId];
    var (perm, pc) := GrantSection(s.perm, e.token, ty, s.mapLock.pc, a);
    var s1 := s.(perm := perm, ents := s.ents[scId := e.(isGrant := true)]);
    if !pc.Finished? then s1.(mapLock := DialogGranting(scId, pc, ty))
    else
      var s2 := s1.(mapLock := MapFree, dialog := s.dialog.(waits := s.dialog.waits - {scId}));
      if pc.res == SC_OK then
        s2.(closing := s.closing + [Closing(scId, ShownType(s, scId), ty)],
           log := s.log + [DialogOk(scId, e.token, ty)])
      else s2
  }

  function DoSetFirstUseBit(s: State, k: nat): State
    requires k < |s.closing| && s.closing[k].scId in s.ents
  {
    var c := s.closing[k];
    var e := s.ents[c.scId];
    var s1 := s.(dialog := SetFirstUse(s.dialog, e.token, e.comp.ty), closing := s.closing[..k] + s.closing[k + 1..]);
    if e.comp.ty != Save then s1
    else s1.(perm := s.perm.(tasks := s.perm.tasks + [Task("", 0, SaveRecord)]),
             log := s.log + [BitSet(c.scId, e.token, c.shown, c.granted)])
  }

  function DoFireTask(s: State, k: nat): State
    requires k < |s.perm.tasks|
  {
    var started := s.perm.(tasks := RemoveAt(s.perm.tasks, k));
    match s.perm.tasks[k].callback
    case RevokeAll(t) => s.(perm := RevokeNow(started, t))
    case RevokeSaveCount(t) => s.(perm := RevokeSaveOnce(started, t))
    case ExitSa => s.(perm := started, saExit := s.saExit || !AnyComponent(s.procs))
    case SaveRecord => s.(perm := started)
  }

  function Exec(s: State, l: Label): State
    requires Enabled(s, l)
  {
    match l
    case Register(c, r) => DoRegister(s, c, r)
    case RegisterAdd(k) => DoRegisterAdd(s, k)
    case CallCheck(call) => DoCallCheck(s, call)
    case Update(k) => DoUpdate(DropCall(s, k), s.passed[k].scId, s.passed[k].caller, s.passed[k].report)
    case Unregister(scId, c) => DoUnregister(s, scId, c)
    case Click(k) => DoClick(DropCall(s, k), s.passed[k].scId, s.passed[k].caller, s.passed[k].click)
    case ClickNotify(a) => DoNotify(s, a)
    case ClickGrant(a) => DoClickGrant(s, a)
    case Died(pid, cached) => DoDied(s, pid, cached)
    case DiedStep => DoDiedStep(s)
    case AppMgrDied(order) => DoAppMgrDied(s, order)
    case AppMgrStep => DoAppMgrStep(s)
    case Foreground(pid) => DoForeground(s, pid)
    case Background(pid) => DoBackground(s, pid)
    case PreRegisterStop(c) => DoPreRegisterStop(s, c)
    case PreRegisterCommit(k) => DoPreRegisterCommit(s, k)
    case DialogClosed(scId, result) => DoDialogClosed(s, scId, result)
    case DialogGrant(a) => DoDialogGrant(s, a)
    case SetFirstUseBit(k) => DoSetFirstUseBit(s, k)
    case FireTask(k) => DoFireTask(s, k)
  }

  ghost predicate Step(s: State, l: Label, s': State) {
    Enabled(s, l) && s' == Exec(s, l)
  }

  ghost predicate StepAt(states: seq<State>, labels: seq<Label>, i: nat) {
    i < |labels| && i + 1 < |states| && Step(states[i], labels[i], states[i + 1])
  }

  ghost predicate IsRun(states: seq<State>, labels: seq<Label>) {
    && |states| == |labels| + 1
    && Init(states[0])
    && forall i :: 0 <= i < |labels| ==> StepAt(states, labels, i)
  }

  // What each kind of step leaves alone

  /** The steps of a call from an application. */
  predicate IsCall(l: Label) {
    l.Register? || l.RegisterAdd? || l.CallCheck? || l.Update? || l.Unregister? || l.Click?
  }

  /** The steps by which processes come, go and change places. */
  predicate IsProcessEvent(l: Label) {
    l.Died? || l.DiedStep? || l.AppMgrDied? || l.AppMgrStep? || l.Foreground? || l.Background?
  }

  /** The steps of a click that was accepted, and of a dialog that is closed. */
  predicate IsDialogStep(l: Label) {
    l.ClickNotify? || l.ClickGrant? || l.DialogClosed? || l.DialogGrant? || l.SetFirstUseBit?
  }

  lemma CallFrame(s: State, l: Label)
    requires Enabled(s, l) && IsCall(l)
    ensures var s' := Exec(s, l);
            && s' == s.(procs := s'.procs, nextStart := s'.nextStart, foldOffset := s'.foldOffset, ents := s'.ents,
                        perm := s'.perm, mal := s'.mal, lock := s'.lock, starting := s'.starting, passed := s'.passed,
                        log := s'.log)
            && (l.Click? || (s'.lock == s.lock && s'.log == s.log))
            && (s'.lock == s.lock || s'.lock.Notifying?)
  {
  }

  /** What a process event leaves alone. */
  predicate ProcessChange(s: State, s': State) {
    && s' == s.(procs := s'.procs, saExit := s'.saExit, perm := s'.perm,
                dialog := s.dialog.(waits := s'.dialog.waits), mal := s'.mal, lock := s'.lock)
    && !s'.lock.Granting? && !s'.lock.Notifying?
  }

  lemma DiedStepFrame(s: State)
    requires Enabled(s, DiedStep)
    ensures ProcessChange(s, DoDiedStep(s))
  {
  }

  lemma AppMgrStepFrame(s: State)
    requires Enabled(s, AppMgrStep)
    ensures ProcessChange(s, DoAppMgrStep(s))
  {
  }

  lemma ProcessFrame(s: State, l: Label)
    requires Enabled(s, l) && IsProcessEvent(l)
    ensures ProcessChange(s, Exec(s, l))
  {
    if l.DiedStep? {
      DiedStepFrame(s);
    } else if l.AppMgrStep? {
      AppMgrStepFrame(s);
    }
  }

  lemma ProcessWaits(s: State, l: Label, sc: int)
    requires Enabled(s, l) && IsProcessEvent(l)
    ensures sc in Exec(s, l).dialog.waits ==> sc in s.dialog.waits
  {
  }

  /** The object is the same, or has been marked granted. */
  predicate SameButGrant(s: State, s': State, sc: int) {
    && (sc in s.ents <==> sc in s'.ents)
    && (sc in s.ents ==> s'.ents[sc] == s.ents[sc] || s'.ents[sc] == s.ents[sc].(isGrant := true))
  }

  lemma ClickGrantFrame(s: State, a: Answer, sc: int)
    requires Enabled(s, ClickGrant(a))
    ensures SameButGrant(s, DoClickGrant(s, a), sc)
  {
  }

  lemma DialogGrantFrame(s: State, a: Answer, sc: int)
    requires Enabled(s, DialogGrant(a))
    ensures SameButGrant(s, DoDialogGrant(s, a), sc)
  {
  }

  /** Dialog steps change a component's object at most by marking it granted. */
  lemma DialogFrame(s: State, l: Label, sc: int)
    requires Enabled(s, l) && IsDialogStep(l)
    ensures SameButGrant(s, Exec(s, l), sc)
  {
    if l.ClickGrant? {
      ClickGrantFrame(s, l.answer, sc);
    } else if l.DialogGrant? {
      DialogGrantFrame(s, l.answer, sc);
    }
  }

  /** What is neither a call, nor a process event, nor a dialog step, leaves all components and dialogs alone. */
  lemma OtherFrame(s: State, l: Label)
    requires Enabled(s, l) && !IsCall(l) && !IsProcessEvent(l) && !IsDialogStep(l)
    ensures var s' := Exec(s, l);
            s' == s.(procs := s'.procs, saExit := s'.saExit, perm := s'.perm, preRegs := s'.preRegs)
  {
  }

  // What every step keeps

  ghost predicate LockWf(s: State) {
    match s.lock
    case Free => true
    case Notifying(sc) => sc in s.ents && HasComponent(s.procs, s.ents[sc].pid, sc)
    case Granting(sc, pc) => sc in s.ents && HasComponent(s.procs, s.ents[sc].pid, sc) && !pc.Finished?
    case Dying(pid, phase) => pid in s.procs && (phase != DropWaits ==> s.procs[pid].comps == [])
    case AppMgrDying(order, _) => forall i :: 0 <= i < |order| ==> order[i] in s.procs
  }

  ghost predicate MapLockWf(s: State) {
    s.mapLock.DialogGranting? ==> s.mapLock.scId in s.dialog.waits && !s.mapLock.pc.Finished?
  }

  /** Every registered component has its object, owned by the process it is listed under. */
  ghost predicate EntitiesWf(s: State) {
    && (forall pid, id :: HasComponent(s.procs, pid, id) ==>
          id in s.ents && s.ents[id].scId == id && s.ents[id].pid == pid && s.ents[id].token == s.procs[pid].token)
    && (forall sc :: sc in s.dialog.waits ==> sc in s.ents && OwnerOfEntity(s.ents[sc]) == s.dialog.waits[sc])
    && (forall k :: 0 <= k < |s.closing| ==> s.closing[k].scId in s.ents)
  }

  predicate NotLive(procs: Procs, id: int) {
    forall pid :: pid in procs ==> id !in procs[pid].comps
  }

  /** The ids of unfinished registrations are in range, distinct and used nowhere else. */
  ghost predicate StartingWf(s: State) {
    && (forall k :: 0 <= k < |s.starting| ==> StartingIdFree(s, s.starting[k].id))
    && (forall j, k :: 0 <= j < k < |s.starting| ==> s.starting[j].id != s.starting[k].id)
  }

  predicate StartingIdFree(s: State, id: int) {
    IdInRange(id) && NotLive(s.procs, id) && id !in s.dialog.waits && NotClosing(s, id)
  }

  ghost predicate Wf(s: State) {
    && RegistryInv(s.procs) && IdInRange(s.nextStart)
    && EntitiesWf(s) && LockWf(s) && MapLockWf(s) && StartingWf(s)
  }

  /** Fewer ids are live than there are ids. */
  ghost predicate IdsLeft(s: State) {
    |LiveIds(s.procs)| < ID_RANGE
  }

  lemma FreshIdIsFree(s: State)
    requires Wf(s) && IdsLeft(s)
    ensures IdInRange(FreshId(s)) && FreshId(s) !in LiveIds(s.procs)
  {
    var k := FirstFreeMeaning(s.nextStart, LiveIds(s.procs));
  }

  lemma FrameWf(s: State, s': State)
    requires Wf(s)
    requires s'.procs == s.procs && IdInRange(s'.nextStart) && s'.ents == s.ents && s'.dialog == s.dialog
    requires s'.closing == s.closing && s'.lock == s.lock && s'.mapLock == s.mapLock && s'.starting == s.starting
    ensures Wf(s')
  {
  }

  lemma StartingAdded(s: State, s': State, x: Starting)
    requires Wf(s) && StartingIdFree(s, x.id) && forall k :: 0 <= k < |s.starting| ==> s.starting[k].id != x.id
    requires s' == s.(mal := s'.mal, nextStart := x.id, starting := s.starting + [x])
    ensures Wf(s')
  {
    assert StartingWf(s') by {
      forall k | 0 <= k < |s'.starting| ensures StartingIdFree(s', s'.starting[k].id) {
        assert StartingIdFree(s, s'.starting[k].id);
      }
    }
  }

  lemma NewIdFree(s: State)
    requires Wf(s) && IdsLeft(s) && IdUnused(s, FreshId(s))
    ensures StartingIdFree(s, FreshId(s)) && forall k :: 0 <= k < |s.starting| ==> s.starting[k].id != FreshId(s)
  {
    FreshIdIsFree(s);
    var id := FreshId(s);
    forall pid | pid in s.procs ensures id !in s.procs[pid].comps {
      assert id in s.procs[pid].comps ==> id in LiveIds(s.procs);
    }
  }

  lemma RegisterWf(s: State, c: Caller, r: ReportInput)
    requires Wf(s) && IdsLeft(s) && IdUnused(s, FreshId(s))
    ensures Wf(DoRegister(s, c, r))
  {
    var s' := DoRegister(s, c, r);
    if s'.starting == s.starting {
      FrameWf(s, s');
    } else {
      NewIdFree(s);
      StartingAdded(s, s', s'.starting[|s.starting|]);
    }
  }

  lemma StartingDropped(s: State, s': State, k: nat)
    requires StartingWf(s) && k < |s.starting| && s'.starting == s.starting[..k] + s.starting[k + 1..]
    requires s'.dialog == s.dialog && s'.closing == s.closing
    requires forall id :: id != s.starting[k].id && NotLive(s.procs, id) ==> NotLive(s'.procs, id)
    ensures StartingWf(s')
  {
    forall j | 0 <= j < |s'.starting| ensures s'.starting[j] == s.starting[if j < k then j else j + 1] {
    }
  }

  lemma AddedEntities(s: State, s': State, k: nat)
    requires Wf(s) && Enabled(s, RegisterAdd(k)) && s' == DoRegisterAdd(s, k)
    ensures RegistryInv(s'.procs) && EntitiesWf(s')
    ensures forall id :: id != s.starting[k].id && NotLive(s.procs, id) ==> NotLive(s'.procs, id)
  {
    var x := s.starting[k];
    assert StartingIdFree(s, x.id);
    AddRefinesFlat(s.procs, s.saExit, x.caller.pid, x.caller.token, x.id);
    forall pid, y | HasComponent(s'.procs, pid, y)
      ensures y in s'.ents && s'.ents[y].scId == y && s'.ents[y].pid == pid && s'.ents[y].token == s'.procs[pid].token
    {
      if s'.procs != s.procs {
        AddHolds(s.procs, s.saExit, x.caller.pid, x.caller.token, x.id, pid, y);
      }
    }
  }

  lemma RegisterAddWf(s: State, k: nat)
    requires Wf(s) && Enabled(s, RegisterAdd(k))
    ensures Wf(DoRegisterAdd(s, k))
  {
    var s' := DoRegisterAdd(s, k);
    AddedEntities(s, s', k);
    StartingDropped(s, s', k);
  }

  lemma DeletedNotLive(s: State, scId: int, c: Caller, id: int)
    requires Wf(s) && NotLive(s.procs, id)
    ensures NotLive(DoUnregister(s, scId, c).procs, id)
  {
    var s' := DoUnregister(s, scId, c);
    forall pid | pid in s'.procs ensures id !in s'.procs[pid].comps {
      DeleteHolds(s.procs, c.pid, scId, pid, id);
      assert HasComponent(s'.procs, pid, id) <==> id in s'.procs[pid].comps;
    }
  }

  lemma UnregisterWf(s: State, scId: int, c: Caller)
    requires Wf(s) && Enabled(s, Unregister(scId, c))
    ensures Wf(DoUnregister(s, scId, c))
  {
    DeleteRefinesFlat(s.procs, c.pid, scId);
    var s' := DoUnregister(s, scId, c);
    forall pid, x | HasComponent(s'.procs, pid, x)
      ensures x in s'.ents && s'.ents[x].scId == x && s'.ents[x].pid == pid && s'.ents[x].token == s'.procs[pid].token
    {
      DeleteHolds(s.procs, c.pid, scId, pid, x);
    }
    forall id | NotLive(s.procs, id) ensures NotLive(s'.procs, id) {
      DeletedNotLive(s, scId, c, id);
    }
  }

  lemma ClickWf(s: State, scId: int, c: Caller, input: ClickInput)
    requires Wf(s) && s.lock == Free
    ensures Wf(DoClick(s, scId, c, input))
  {
    if scId in s.ents {
      ClickKeepsIdentity(s.ents[scId], input, s.foldOffset);
    }
  }

  /** Lists that stay as they were or become empty keep the register in order. */
  lemma RegistryShrinks(procs: Procs, procs': Procs)
    requires RegistryInv(procs)
    requires forall pid :: pid in procs' ==>
             procs'[pid].comps == [] || (pid in procs && procs'[pid].comps == procs[pid].comps)
    ensures RegistryInv(procs')
  {
    forall p, q, id | HasComponent(procs', p, id) && HasComponent(procs', q, id) ensures p == q {
      assert HasComponent(procs, p, id) && HasComponent(procs, q, id);
    }
    forall pid, id | HasComponent(procs', pid, id) ensures IdInRange(id) {
      assert HasComponent(procs, pid, id);
    }
  }

  lemma ProcChangeWf(s: State, s': State)
    requires Wf(s)
    requires s'.nextStart == s.nextStart && s'.ents == s.ents && s'.dialog == s.dialog && s'.closing == s.closing
    requires s'.starting == s.starting
    requires s'.mapLock == s.mapLock && s'.lock == Free
    requires forall pid, x :: HasComponent(s'.procs, pid, x) ==>
             HasComponent(s.procs, pid, x) && s'.procs[pid].token == s.procs[pid].token
    requires forall pid :: pid in s'.procs ==>
             s'.procs[pid].comps == [] || (pid in s.procs && s'.procs[pid].comps == s.procs[pid].comps)
    ensures Wf(s')
  {
  }

  lemma UpdateWf(s: State, scId: int, c: Caller, r: ReportInput)
    requires Wf(s) && s.lock == Free
    ensures Wf(DoUpdate(s, scId, c, r))
  {
  }

  lemma NotifyWf(s: State, a: DialogAnswer)
    requires Wf(s) && Enabled(s, ClickNotify(a))
    ensures Wf(DoNotify(s, a))
  {
  }

  lemma ClickGrantWf(s: State, a: Answer)
    requires Wf(s) && Enabled(s, ClickGrant(a))
    ensures Wf(DoClickGrant(s, a))
  {
  }

  /** A death only takes components and waits away. */
  lemma ShrinkWf(s: State, s': State)
    requires Wf(s) && s'.nextStart == s.nextStart && s'.ents == s.ents && s'.closing == s.closing
    requires s'.mapLock == s.mapLock && s'.starting == s.starting && LockWf(s') && MapLockWf(s')
    requires forall pid :: pid in s'.procs ==>
               pid in s.procs && s'.procs[pid].token == s.procs[pid].token
               && (s'.procs[pid].comps == [] || s'.procs[pid].comps == s.procs[pid].comps)
    requires forall k :: k in s'.dialog.waits ==> k in s.dialog.waits && s'.dialog.waits[k] == s.dialog.waits[k]
    ensures Wf(s')
  {
    RegistryShrinks(s.procs, s'.procs);
    forall pid, id | HasComponent(s'.procs, pid, id) ensures HasComponent(s.procs, pid, id) {
    }
  }

  lemma DiedStepWf(s: State)
    requires Wf(s) && Enabled(s, DiedStep)
    ensures Wf(DoDiedStep(s))
  {
    ShrinkWf(s, DoDiedStep(s));
  }

  lemma DialogGrantEntities(s: State, a: Answer)
    requires Wf(s) && s.mapLock.DialogGranting? && s.mapLock.scId in s.ents && !s.mapLock.pc.Finished?
    ensures EntitiesWf(DoDialogGrant(s, a))
  {
  }

  lemma DialogGrantLocks(s: State, a: Answer)
    requires Wf(s) && s.mapLock.DialogGranting? && s.mapLock.scId in s.ents && !s.mapLock.pc.Finished?
    ensures LockWf(DoDialogGrant(s, a)) && MapLockWf(DoDialogGrant(s, a))
  {
  }

  lemma DialogGrantStarting(s: State, a: Answer)
    requires Wf(s) && s.mapLock.DialogGranting? && s.mapLock.scId in s.ents && !s.mapLock.pc.Finished?
    ensures StartingWf(DoDialogGrant(s, a))
  {
    var s' := DoDialogGrant(s, a);
    var sc := s.mapLock.scId;
    forall k | 0 <= k < |s.starting| ensures StartingIdFree(s', s.starting[k].id) {
      assert StartingIdFree(s, s.starting[k].id);
    }
  }

  lemma DialogGrantWf(s: State, a: Answer)
    requires Wf(s) && s.mapLock.DialogGranting? && s.mapLock.scId in s.ents && !s.mapLock.pc.Finished?
    ensures Wf(DoDialogGrant(s, a))
  {
    DialogGrantEntities(s, a);
    DialogGrantLocks(s, a);
    DialogGrantStarting(s, a);
  }

  lemma ClosingDropped(s: State, s': State, k: nat)
    requires Wf(s) && k < |s.closing| && s' == s.(closing := s.closing[..k] + s.closing[k + 1..])
    ensures Wf(s')
  {
    forall j | 0 <= j < |s'.closing| ensures s'.closing[j] == s.closing[if j < k then j else j + 1] {
    }
    forall id | NotClosing(s, id) ensures NotClosing(s', id) {
    }
    forall j | 0 <= j < |s'.starting| ensures StartingIdFree(s', s'.starting[j].id) {
      assert StartingIdFree(s, s.starting[j].id);
    }
  }

  lemma SetFirstUseBitWf(s: State, k: nat)
    requires Wf(s) && Enabled(s, SetFirstUseBit(k))
    ensures Wf(DoSetFirstUseBit(s, k))
  {
    var s' := DoSetFirstUseBit(s, k);
    var s1 := s.(closing := s'.closing);
    ClosingDropped(s, s1, k);
    SameWaitsWf(s1, s');
  }

  lemma SameWaitsWf(s: State, s': State)
    requires Wf(s) && s' == s.(dialog := s'.dialog, perm := s'.perm, log := s'.log) && s'.dialog.waits == s.dialog.waits
    ensures Wf(s')
  {
  }

  lemma AppMgrDiedWf(s: State, order: seq<int>)
    requires Wf(s) && Enabled(s, AppMgrDied(order))
    ensures Wf(DoAppMgrDied(s, order))
  {
  }

  lemma AppMgrStepWf(s: State)
    requires Wf(s) && Enabled(s, AppMgrStep)
    ensures Wf(DoAppMgrStep(s))
  {
    ShrinkWf(s, DoAppMgrStep(s));
  }

  lemma ForegroundWf(s: State, pid: int)
    requires Wf(s) && s.lock == Free
    ensures Wf(DoForeground(s, pid))
  {
    ProcChangeWf(s, DoForeground(s, pid));
  }

  lemma BackgroundWf(s: State, pid: int)
    requires Wf(s) && s.lock == Free
    ensures Wf(DoBackground(s, pid))
  {
    ProcChangeWf(s, DoBackground(s, pid));
  }

  lemma PreRegisterCommitWf(s: State, k: nat)
    requires Wf(s) && Enabled(s, PreRegisterCommit(k))
    ensures Wf(DoPreRegisterCommit(s, k))
  {
    ProcChangeWf(s, DoPreRegisterCommit(s, k));
  }

  lemma DiedWf(s: State, pid: int, cached: bool)
    requires Wf(s) && Enabled(s, Died(pid, cached))
    ensures Wf(DoDied(s, pid, cached))
  {
  }

  lemma DialogClosedWf(s: State, scId: int, result: int)
    requires Wf(s) && Enabled(s, DialogClosed(scId, result))
    ensures Wf(DoDialogClosed(s, scId, result))
  {
  }

  lemma CallWf(s: State, l: Label)
    requires Wf(s) && IdsLeft(s) && Enabled(s, l) && IsCall(l)
    ensures Wf(Exec(s, l))
  {
    match l {
      case Register(c, r) => RegisterWf(s, c, r);
      case RegisterAdd(k) => RegisterAddWf(s, k);
      case CallCheck(call) => FrameWf(s, DoCallCheck(s, call));
      case Update(k) =>
        FrameWf(s, DropCall(s, k));
        UpdateWf(DropCall(s, k), s.passed[k].scId, s.passed[k].caller, s.passed[k].report);
      case Unregister(scId, c) => UnregisterWf(s, scId, c);
      case Click(k) =>
        FrameWf(s, DropCall(s, k));
        ClickWf(DropCall(s, k), s.passed[k].scId, s.passed[k].caller, s.passed[k].click);
    }
  }

  lemma ProcessWf(s: State, l: Label)
    requires Wf(s) && Enabled(s, l) && IsProcessEvent(l)
    ensures Wf(Exec(s, l))
  {
    match l {
      case Died(pid, cached) => DiedWf(s, pid, cached);
      case DiedStep => DiedStepWf(s);
      case AppMgrDied(order) => AppMgrDiedWf(s, order);
      case AppMgrStep => AppMgrStepWf(s);
      case Foreground(pid) => ForegroundWf(s, pid);
      case Background(pid) => BackgroundWf(s, pid);
    }
  }

  lemma DialogWf(s: State, l: Label)
    requires Wf(s) && Enabled(s, l) && IsDialogStep(l)
    ensures Wf(Exec(s, l))
  {
    match l {
      case ClickNotify(a) => NotifyWf(s, a);
      case ClickGrant(a) => ClickGrantWf(s, a);
      case DialogClosed(scId, result) => DialogClosedWf(s, scId, result);
      case DialogGrant(a) => DialogGrantWf(s, a);
      case SetFirstUseBit(k) => SetFirstUseBitWf(s, k);
    }
  }

  lemma StepWf(s: State, l: Label)
    requires Wf(s) && IdsLeft(s) && Enabled(s, l)
    ensures Wf(Exec(s, l))
  {
    if IsCall(l) {
      CallWf(s, l);
    } else if l.PreRegisterStop? {
      FrameWf(s, DoPreRegisterStop(s, l.caller));
    } else if l.PreRegisterCommit? {
      PreRegisterCommitWf(s, l.index);
    } else if l.FireTask? {
      FrameWf(s, DoFireTask(s, l.task));
    } else if IsDialogStep(l) {
      DialogWf(s, l);
    } else {
      ProcessWf(s, l);
    }
  }

  /** A run in which there is always an id left to hand out. */
  ghost predicate RoomyRun(states: seq<State>, labels: seq<Label>) {
    IsRun(states, labels) && forall i :: 0 <= i < |states| ==> IdsLeft(states[i])
  }

  lemma {:induction false} RunWf(states: seq<State>, labels: seq<Label>, n: nat)
    requires RoomyRun(states, labels) && n < |states|
    ensures Wf(states[n])
  {
    if n > 0 {
      assert StepAt(states, labels, n - 1);
      RunWf(states, labels, n - 1);
      StepWf(states[n - 1], labels[n - 1]);
    }
  }
}
