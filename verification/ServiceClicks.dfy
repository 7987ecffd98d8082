/** Clicks over whole runs: what each grant gives and which click it goes back to, and what is stored of each report. */
module ServiceClicks {
  import opened Types
  import opened EventHandler
  import opened PermManager
  import opened Entity
  import opened FirstUseDialog
  import opened Registry
  import opened Service

  // What a step gives

  /** Nothing is held that was not held before, and no save permission is counted more often. */
  ghost predicate NothingGiven(p: PermState, p': PermState) {
    p'.held <= p.held && forall t: TokenId :: CountOf(p', t) <= CountOf(p, t)
  }

  predicate Allows(ty: SecCompType, permission: Permission) {
    match permission
    case ApproximatelyLocation => ty == Location
    case PreciseLocation => ty == Location
    case SecurePaste => ty == Paste
  }

  /** Whatever is new belongs to this token and this type of component; at most one save permission is new. */
  ghost predicate GivesOnly(p: PermState, p': PermState, t: TokenId, ty: SecCompType) {
    && (forall x: (TokenId, Permission) :: x in p'.held && x !in p.held ==> x.0 == t && Allows(ty, x.1))
    && (forall u: TokenId :: CountOf(p', u) > CountOf(p, u) ==>
         u == t && ty == Save && CountOf(p', u) == CountOf(p, u) + 1)
  }

  ghost predicate CountsPositive(p: PermState) {
    forall t :: t in p.counts ==> p.counts[t] >= 1
  }

  /** Where a grant can stand that began for a component of this type. */
  predicate PcTyped(pc: GrantPc, ty: SecCompType) {
    match pc
    case NeedLocation => ty == Location
    case NeedRollback => ty == Location
    case NeedPush(_) => ty == Save
    case _ => true
  }

  ghost predicate GrantsInv(s: State) {
    && CountsPositive(s.perm)
    && (s.lock.Granting? && s.lock.scId in s.ents ==> PcTyped(s.lock.pc, s.ents[s.lock.scId].comp.ty))
    && (s.mapLock.DialogGranting? ==> PcTyped(s.mapLock.pc, s.mapLock.ty))
  }

  lemma SectionGivesOnly(p: PermState, t: TokenId, ty: SecCompType, pc: GrantPc, a: Answer)
    requires CountsPositive(p) && !pc.Finished? && PcTyped(pc, ty)
    ensures var (p', pc') := GrantSection(p, t, ty, pc, a);
            GivesOnly(p, p', t, ty) && PcTyped(pc', ty) && CountsPositive(p')
  {
  }

  ghost predicate Takes(p: PermState, p': PermState) {
    NothingGiven(p, p') && CountsPositive(p')
  }

  lemma RevocationsTake(p: PermState, t: TokenId)
    requires CountsPositive(p)
    ensures Takes(p, RevokeNow(p, t)) && Takes(p, RevokeSaveAll(p, t)) && Takes(p, RevokeSaveOnce(p, t))
  {
  }

  lemma DeathGivesNothing(s: State)
    requires CountsPositive(s.perm) && Enabled(s, DiedStep)
    ensures Takes(s.perm, DoDiedStep(s).perm)
  {
    RevocationsTake(s.perm, s.procs[s.lock.pid].token);
  }

  lemma AppMgrGivesNothing(s: State)
    requires CountsPositive(s.perm) && Enabled(s, AppMgrStep)
    ensures Takes(s.perm, DoAppMgrStep(s).perm)
  {
    if s.lock.order != [] {
      RevocationsTake(s.perm, s.procs[s.lock.order[0]].token);
    }
  }

  lemma TaskGivesNothing(s: State, k: nat)
    requires CountsPositive(s.perm) && k < |s.perm.tasks|
    ensures Takes(s.perm, DoFireTask(s, k).perm)
  {
    var started := s.perm.(tasks := RemoveAt(s.perm.tasks, k));
    SameHoldings(s.perm, started, started);
    var callback := s.perm.tasks[k].callback;
    if callback.RevokeAll? || callback.RevokeSaveCount? {
      RevocationsTake(started, callback.token);
      SameHoldings(s.perm, started, DoFireTask(s, k).perm);
    }
  }

  lemma SameHoldings(p: PermState, q: PermState, r: PermState)
    requires p.held == q.held && p.counts == q.counts
    ensures CountsPositive(p) == CountsPositive(q) && NothingGiven(p, r) == NothingGiven(q, r)
  {
  }

  lemma CallGivesNothing(s: State, l: Label)
    requires Enabled(s, l) && IsCall(l)
    ensures Exec(s, l).perm.held == s.perm.held && Exec(s, l).perm.counts == s.perm.counts
  {
  }

  lemma OtherGivesNothing(s: State, l: Label)
    requires Enabled(s, l) && !IsCall(l)
    requires !l.ClickGrant? && !l.DialogGrant? && !l.DiedStep? && !l.AppMgrStep? && !l.FireTask?
    ensures Exec(s, l).perm.held == s.perm.held && Exec(s, l).perm.counts == s.perm.counts
  {
  }

  lemma StepGivesNothing(s: State, l: Label)
    requires CountsPositive(s.perm) && Enabled(s, l) && !l.ClickGrant? && !l.DialogGrant?
    ensures Takes(s.perm, Exec(s, l).perm)
  {
    if l.DiedStep? {
      DeathGivesNothing(s);
    } else if l.AppMgrStep? {
      AppMgrGivesNothing(s);
    } else if l.FireTask? {
      TaskGivesNothing(s, l.task);
    } else if IsCall(l) {
      CallGivesNothing(s, l);
    } else {
      OtherGivesNothing(s, l);
    }
  }

  /** The step is a section of a grant for this component. */
  predicate Grants(s: State, l: Label, sc: int) {
    || (l.ClickGrant? && s.lock.Granting? && s.lock.scId == sc)
    || (l.DialogGrant? && s.mapLock.DialogGranting? && s.mapLock.scId == sc)
  }

  /** The type a section of a grant goes by. */
  function GrantedType(s: State, l: Label, sc: int): SecCompType
    requires Grants(s, l, sc) && sc in s.ents
  {
    if l.ClickGrant? then s.ents[sc].comp.ty else DialogType(s)
  }

  lemma ClickGrantGives(s: State, a: Answer)
    requires GrantsInv(s) && Enabled(s, ClickGrant(a))
    ensures var e := s.ents[s.lock.scId];
            GivesOnly(s.perm, DoClickGrant(s, a).perm, e.token, e.comp.ty) && GrantsInv(DoClickGrant(s, a))
  {
    var e := s.ents[s.lock.scId];
    SectionGivesOnly(s.perm, e.token, e.comp.ty, s.lock.pc, a);
  }

  lemma DialogGrantGives(s: State, a: Answer)
    requires GrantsInv(s) && Enabled(s, DialogGrant(a))
    ensures GivesOnly(s.perm, DoDialogGrant(s, a).perm, s.ents[s.mapLock.scId].token, DialogType(s))
    ensures GrantsInv(DoDialogGrant(s, a))
  {
    SectionGivesOnly(s.perm, s.ents[s.mapLock.scId].token, DialogType(s), s.mapLock.pc, a);
    if s.lock.Granting? {
      DialogGrantFrame(s, a, s.lock.scId);
      assert s.lock.scId in DoDialogGrant(s, a).ents ==> s.lock.scId in s.ents;
    }
  }

  predicate SameOwnerOf(s: State, s': State, sc: int) {
    && sc in s.ents && sc in s'.ents
    && s'.ents[sc].pid == s.ents[sc].pid && s'.ents[sc].token == s.ents[sc].token
  }

  predicate SameObject(s: State, s': State, sc: int) {
    SameOwnerOf(s, s', sc) && s'.ents[sc].comp == s.ents[sc].comp
  }

  /** Only calls report anything. */
  lemma OnlyCallsReport(s: State, l: Label, s': State, sc: int)
    requires Step(s, l, s') && !IsCall(l) && sc in s.ents
    ensures SameObject(s, s', sc)
  {
    if IsProcessEvent(l) {
      ProcessFrame(s, l);
    } else if IsDialogStep(l) {
      DialogFrame(s, l, sc);
    } else {
      OtherFrame(s, l);
    }
  }

  /** While the component lock is held nothing is reported: every object keeps its report and its owner. */
  lemma HeldLockKeepsReports(s: State, l: Label, s': State, sc: int)
    requires Step(s, l, s') && s.lock != Free && sc in s.ents
    ensures SameObject(s, s', sc)
  {
    if !IsCall(l) {
      OnlyCallsReport(s, l, s', sc);
    }
  }

  /** Only grants move a lock into a section other than the first. */
  lemma LocksMove(s: State, l: Label)
    requires Enabled(s, l) && !l.ClickGrant? && !l.DialogGrant?
    ensures var s' := Exec(s, l);
            && (s'.lock.Granting? ==> s'.lock == s.lock || s'.lock.pc == Begin)
            && (s'.mapLock.DialogGranting? ==> s'.mapLock == s.mapLock || s'.mapLock.pc == Begin)
  {
    if IsCall(l) {
      CallFrame(s, l);
    } else if IsProcessEvent(l) {
      ProcessFrame(s, l);
    }
  }

  lemma StepGrantsInv(s: State, l: Label, s': State)
    requires GrantsInv(s) && Step(s, l, s')
    requires s.lock.Granting? ==> s.lock.scId in s.ents
    ensures GrantsInv(s')
  {
    if l.ClickGrant? {
      ClickGrantGives(s, l.answer);
    } else if l.DialogGrant? {
      DialogGrantGives(s, l.answer);
    } else {
      StepGivesNothing(s, l);
      LocksMove(s, l);
      if s.lock.Granting? {
        HeldLockKeepsReports(s, l, s', s.lock.scId);
      }
    }
  }

  lemma {:induction false} RunGrants(states: seq<State>, labels: seq<Label>, n: nat)
    requires RoomyRun(states, labels) && n < |states|
    ensures Wf(states[n]) && GrantsInv(states[n])
  {
    RunWf(states, labels, n);
    if n > 0 {
      assert StepAt(states, labels, n - 1);
      RunGrants(states, labels, n - 1);
      StepGrantsInv(states[n - 1], labels[n - 1], states[n]);
    }
  }

  // Where a grant comes from

  /** A click on its own component that passed every check, by a call that was past the malicious list. */
  predicate AcceptedClick(s: State, l: Label, sc: int) {
    && l.Click? && l.index < |s.passed| && s.passed[l.index].ClickCall? && s.passed[l.index].scId == sc
    && sc in s.ents && HasComponent(s.procs, s.passed[l.index].caller.pid, sc)
    && Acceptable(s.ents[sc], s.passed[l.index].click, s.foldOffset)
  }

  /** The type the user clicked: that of the report which came with the click. */
  function ClickedType(s: State, l: Label, sc: int): SecCompType
    requires AcceptedClick(s, l, sc)
  {
    s.passed[l.index].click.report.value.ty
  }

  /** The step shows a dialog for the component. */
  predicate Shows(s: State, l: Label, sc: int) {
    && l.ClickNotify? && s.lock == Notifying(sc) && sc in s.ents
    && var res := Notify(s.dialog, sc, OwnerOfEntity(s.ents[sc]), s.ents[sc].comp.ty, l.dialogAnswer).1;
    res != SC_OK && res != SC_SERVICE_ERROR_VALUE_INVALID
  }

  lemma ClickNotifies(s: State, scId: int, c: Caller, input: ClickInput, sc: int)
    requires s.lock == Free && DoClick(s, scId, c, input).lock == Notifying(sc)
    ensures scId == sc && sc in s.ents && HasComponent(s.procs, c.pid, sc) &&
            Acceptable(s.ents[sc], input, s.foldOffset)
    ensures var s' := DoClick(s, scId, c, input);
            SameOwnerOf(s, s', sc) && s'.ents[sc].comp.ty == input.report.value.ty
  {
    ClickSoundness(s.ents[sc], input, s.foldOffset);
    ClickStoresReport(s.ents[sc], input, s.foldOffset);
    AcceptedStores(s.ents[sc], input, s.foldOffset);
  }

  lemma AcceptedStores(e: EntityView, input: ClickInput, offset: int)
    requires JudgeClick(e, input, offset).accepted
    ensures input.report.Some? && JudgeClick(e, input, offset).entity.comp.ty == input.report.value.ty
  {
  }

  /** The click was accepted between the two states, and the component now has the type that was clicked. */
  predicate Accepts(s: State, l: Label, s': State, sc: int) {
    AcceptedClick(s, l, sc) && SameOwnerOf(s, s', sc) && s'.ents[sc].comp.ty == ClickedType(s, l, sc)
  }

  /** The component lock is taken for a click only by accepting it. */
  lemma NotifyingStep(s: State, l: Label, s': State, sc: int)
    requires Step(s, l, s') && s'.lock == Notifying(sc)
    ensures if s.lock == Notifying(sc) then sc in s.ents ==> SameObject(s, s', sc) else Accepts(s, l, s', sc)
  {
    if s.lock == Notifying(sc) {
      if sc in s.ents {
        HeldLockKeepsReports(s, l, s', sc);
      }
    } else if IsCall(l) {
      CallFrame(s, l);
      ClickNotifies(DropCall(s, l.index), s.passed[l.index].scId, s.passed[l.index].caller, s.passed[l.index].click,
        sc);
    } else if IsProcessEvent(l) {
      ProcessFrame(s, l);
    }
  }

  lemma {:induction false} NotifyingSince(states: seq<State>, labels: seq<Label>, n: nat, sc: int) returns (i: nat)
    requires IsRun(states, labels) && n < |states| && states[n].lock == Notifying(sc)
    ensures i < n && Accepts(states[i], labels[i], states[n], sc)
    ensures forall j :: i < j <= n ==> states[j].lock == Notifying(sc)
  {
    assert n > 0;
    i := n - 1;
    assert StepAt(states, labels, i);
    NotifyingStep(states[i], labels[i], states[n], sc);
    if states[i].lock == Notifying(sc) {
      i := NotifyingSince(states, labels, n - 1, sc);
      AcceptsStays(states[i], labels[i], states[n - 1], states[n], sc);
    }
  }

  lemma AcceptsStays(s: State, l: Label, s1: State, s2: State, sc: int)
    requires Accepts(s, l, s1, sc) && SameObject(s1, s2, sc)
    ensures Accepts(s, l, s2, sc)
  {
  }

  /** The component is being granted, or about to be, on behalf of a click that still holds the component lock. */
  predicate InClick(s: State, sc: int) {
    s.lock == Notifying(sc) || (s.lock.Granting? && s.lock.scId == sc)
  }

  lemma GrantingStep(s: State, l: Label, s': State, sc: int)
    requires Step(s, l, s') && s'.lock.Granting? && s'.lock.scId == sc
    ensures InClick(s, sc) && (sc in s.ents ==> SameObject(s, s', sc))
  {
    if !l.ClickGrant? {
      BeginsAfterClick(s, l, s', sc);
    }
    if sc in s.ents {
      HeldLockKeepsReports(s, l, s', sc);
    }
  }

  lemma BeginsAfterClick(s: State, l: Label, s': State, sc: int)
    requires Step(s, l, s') && s'.lock.Granting? && s'.lock.scId == sc && !l.ClickGrant?
    ensures InClick(s, sc)
  {
    if IsCall(l) {
      CallFrame(s, l);
    } else if IsProcessEvent(l) {
      ProcessFrame(s, l);
    }
  }

  lemma {:induction false} GrantingSince(states: seq<State>, labels: seq<Label>, n: nat, sc: int) returns (i: nat)
    requires IsRun(states, labels) && n < |states| && InClick(states[n], sc)
    ensures i < n && Accepts(states[i], labels[i], states[n], sc)
    ensures forall j :: i < j <= n ==> InClick(states[j], sc)
  {
    if states[n].lock == Notifying(sc) {
      i := NotifyingSince(states, labels, n, sc);
    } else {
      assert n > 0;
      assert StepAt(states, labels, n - 1);
      var before, now := states[n - 1], states[n];
      GrantingStep(before, labels[n - 1], now, sc);
      i := GrantingSince(states, labels, n - 1, sc);
      AcceptsStays(states[i], labels[i], before, now, sc);
    }
  }

  /** The component waits for a dialog that was shown for this type. */
  predicate WaitsFor(s: State, sc: int, ty: SecCompType) {
    sc in s.dialog.waits && sc in s.shown && s.shown[sc] == ty
  }

  lemma NotifyWaits(s: State, a: DialogAnswer, sc: int)
    requires Wf(s) && Enabled(s, ClickNotify(a)) && sc in DoNotify(s, a).dialog.waits
    ensures if Shows(s, ClickNotify(a), sc) then WaitsFor(DoNotify(s, a), sc, s.ents[sc].comp.ty)
            else sc in s.dialog.waits && (sc in s.shown ==> WaitsFor(DoNotify(s, a), sc, s.shown[sc]))
  {
    var e := s.ents[s.lock.scId];
    NotifyMeaning(s.dialog, s.lock.scId, OwnerOfEntity(e), e.comp.ty, a);
  }

  lemma OtherWaits(s: State, l: Label, s': State, sc: int)
    requires Step(s, l, s') && !l.ClickNotify?
    ensures s'.shown == s.shown && (sc in s'.dialog.waits ==> sc in s.dialog.waits)
  {
    if IsCall(l) {
      CallFrame(s, l);
    } else if IsProcessEvent(l) {
      ProcessFrame(s, l);
      ProcessWaits(s, l, sc);
    } else if !IsDialogStep(l) {
      OtherFrame(s, l);
    }
  }

  /** Waiting components keep their owner. */
  lemma WaitersKeepOwner(s: State, l: Label, s': State, sc: int)
    requires Wf(s) && Step(s, l, s') && sc in s.dialog.waits
    ensures SameOwnerOf(s, s', sc)
  {
    if l.RegisterAdd? {
      assert StartingIdFree(s, s.starting[l.index].id);
    } else {
      KeepsOwners(s, l, s', sc);
    }
  }

  /** And so do components whose dialog was granted and whose bit is still to be set. */
  lemma ClosersKeepOwner(s: State, l: Label, s': State, c: Closing)
    requires Wf(s) && Step(s, l, s') && c in s.closing
    ensures SameOwnerOf(s, s', c.scId)
  {
    var k: nat :| k < |s.closing| && s.closing[k] == c;
    assert s.closing[k].scId in s.ents;
    if l.RegisterAdd? {
      assert StartingIdFree(s, s.starting[l.index].id);
      assert s.closing[k].scId != s.starting[l.index].id;
    } else {
      KeepsOwners(s, l, s', c.scId);
    }
  }

  lemma KeepsOwners(s: State, l: Label, s': State, sc: int)
    requires Step(s, l, s') && !l.RegisterAdd? && sc in s.ents
    ensures SameOwnerOf(s, s', sc)
  {
    if l.Click? {
      ClickKeepsOwner(DropCall(s, l.index), s.passed[l.index].scId, s.passed[l.index].caller,
        s.passed[l.index].click, sc);
    } else if !IsCall(l) {
      OnlyCallsReport(s, l, s', sc);
    }
  }

  lemma ClickKeepsOwner(s: State, scId: int, c: Caller, input: ClickInput, sc: int)
    requires sc in s.ents
    ensures SameOwnerOf(s, DoClick(s, scId, c, input), sc)
  {
    if scId in s.ents {
      ClickKeepsIdentity(s.ents[scId], input, s.foldOffset);
    }
  }

  /** A waiting component has just been shown a dialog, or waited before for the same. */
  lemma WaitingStep(s: State, l: Label, s': State, sc: int)
    requires Wf(s) && Step(s, l, s') && sc in s'.dialog.waits
    ensures if Shows(s, l, sc) then WaitsFor(s', sc, s.ents[sc].comp.ty)
            else sc in s.dialog.waits && (sc in s.shown ==> WaitsFor(s', sc, s.shown[sc]))
    ensures SameOwnerOf(s, s', sc)
  {
    if l.ClickNotify? {
      NotifyWaits(s, l.dialogAnswer, sc);
      assert sc in s.ents;
    } else {
      OtherWaits(s, l, s', sc);
      WaitersKeepOwner(s, l, s', sc);
    }
  }

  /** The latest dialog of a waiting component, at step `h`, and the click it was for, at step `i`. */
  ghost predicate WaitHistory(states: seq<State>, labels: seq<Label>, n: nat, sc: int, i: nat, h: nat) {
    && i < h < n < |states| && n <= |labels|
    && Accepts(states[i], labels[i], states[h], sc) && (forall j :: i < j <= h ==> states[j].lock == Notifying(sc))
    && Shows(states[h], labels[h], sc) && WaitsFor(states[n], sc, states[h].ents[sc].comp.ty)
    && SameOwnerOf(states[h], states[n], sc) && (forall j :: h < j <= n ==> sc in states[j].dialog.waits)
  }

  lemma NothingAtStart(s: State, sc: int)
    requires Init(s)
    ensures sc !in s.ents && sc !in s.dialog.waits && !InClick(s, sc)
  {
  }

  lemma {:induction false} WaitingSince(states: seq<State>, labels: seq<Label>, n: nat, sc: int)
    returns (i: nat, h: nat)
    requires RoomyRun(states, labels) && n < |states| && sc in states[n].dialog.waits
    ensures WaitHistory(states, labels, n, sc, i, h)
  {
    NothingAtStart(states[0], sc);
    h := n - 1;
    assert StepAt(states, labels, h);
    RunWf(states, labels, h);
    WaitingStep(states[h], labels[h], states[n], sc);
    if Shows(states[h], labels[h], sc) {
      i := NotifyingSince(states, labels, h, sc);
    } else {
      i, h := WaitingSince(states, labels, n - 1, sc);
      WaitGoesOn(states, labels, n, sc, i, h);
    }
  }

  lemma WaitGoesOn(states: seq<State>, labels: seq<Label>, n: nat, sc: int, i: nat, h: nat)
    requires 0 < n < |states| && n <= |labels| && WaitHistory(states, labels, n - 1, sc, i, h)
    requires SameOwnerOf(states[n - 1], states[n], sc) && WaitsFor(states[n], sc, states[n - 1].shown[sc])
    ensures WaitHistory(states, labels, n, sc, i, h)
  {
  }

  /** A dialog grant goes by the type its component had when the grant began. */
  predicate Begins(s: State, l: Label, sc: int, ty: SecCompType) {
    && l.DialogGrant? && s.mapLock.DialogGranting? && s.mapLock.scId == sc && s.mapLock.pc.Begin?
    && sc in s.ents && s.ents[sc].comp.ty == ty
  }

  predicate GrantsAfterDialog(s: State, sc: int, ty: SecCompType) {
    s.mapLock.DialogGranting? && s.mapLock.scId == sc && !s.mapLock.pc.Begin? && s.mapLock.ty == ty
  }

  lemma BeginStep(s: State, l: Label, s': State, sc: int, ty: SecCompType)
    requires Step(s, l, s') && GrantsAfterDialog(s', sc, ty)
    ensures Begins(s, l, sc, ty) || GrantsAfterDialog(s, sc, ty)
  {
    if !l.DialogGrant? && !l.ClickGrant? {
      LocksMove(s, l);
    }
  }

  lemma {:induction false} BeganAt(states: seq<State>, labels: seq<Label>, n: nat, sc: int, ty: SecCompType)
    returns (b: nat)
    requires IsRun(states, labels) && n < |states| && GrantsAfterDialog(states[n], sc, ty)
    ensures b < n && Begins(states[b], labels[b], sc, ty)
    ensures forall j :: b < j <= n ==> GrantsAfterDialog(states[j], sc, ty)
  {
    assert n > 0;
    b := n - 1;
    assert StepAt(states, labels, b);
    BeginStep(states[b], labels[b], states[n], sc, ty);
    if !Begins(states[b], labels[b], sc, ty) {
      b := BeganAt(states, labels, n - 1, sc, ty);
    }
  }

  // What is stored of a report

  /** The report a step puts into a component: a registration's is kept from its first section to its second. */
  function ReportOf(s: State, l: Label): Option<Component> {
    match l
    case RegisterAdd(k) => if k < |s.starting| then Some(s.starting[k].report) else None
    case Update(k) => if k < |s.passed| && s.passed[k].UpdateCall? then s.passed[k].report.report else None
    case Click(k) => if k < |s.passed| && s.passed[k].ClickCall? then s.passed[k].click.report else None
    case _ => None
  }

  /** The step reported this component, and stored it with its rectangle moved down at most once. */
  predicate StoresAs(s: State, l: Label, c: Component, offset: int) {
    ReportOf(s, l).Some? && StoredFrom(c, ReportOf(s, l).value, offset)
  }

  lemma ClickStores(s: State, k: nat, s': State, sc: int)
    requires Step(s, Click(k), s') && sc in s.ents
    ensures sc in s'.ents && (s'.ents[sc].comp == s.ents[sc].comp ||
            StoresAs(s, Click(k), s'.ents[sc].comp, s'.foldOffset))
  {
    var call := s.passed[k];
    if call.scId in s.ents {
      ClickStoresReport(s.ents[call.scId], call.click, s.foldOffset);
    }
  }

  lemma RegisterStores(s: State, k: nat, s': State, sc: int)
    requires Step(s, RegisterAdd(k), s') && sc in s'.ents
    ensures (sc in s.ents && s'.ents[sc].comp == s.ents[sc].comp)
         || StoresAs(s, RegisterAdd(k), s'.ents[sc].comp, s'.foldOffset)
  {
  }

  lemma UpdateStores(s: State, k: nat, s': State, sc: int)
    requires Step(s, Update(k), s') && sc in s'.ents
    ensures sc in s.ents && (s'.ents[sc].comp == s.ents[sc].comp ||
            StoresAs(s, Update(k), s'.ents[sc].comp, s'.foldOffset))
  {
  }

  lemma OldObject(s: State, l: Label, s': State, sc: int)
    requires Step(s, l, s') && sc in s'.ents && !l.RegisterAdd?
    ensures sc in s.ents
  {
    if IsProcessEvent(l) {
      ProcessFrame(s, l);
    } else if IsDialogStep(l) {
      DialogFrame(s, l, sc);
    } else if !IsCall(l) && !IsDialogStep(l) {
      OtherFrame(s, l);
    }
  }

  /** An object a step leaves behind kept its report, or has the one the step came with. */
  lemma StepStores(s: State, l: Label, s': State, sc: int)
    requires Step(s, l, s') && sc in s'.ents
    ensures (sc in s.ents && s'.ents[sc].comp == s.ents[sc].comp) || StoresAs(s, l, s'.ents[sc].comp, s'.foldOffset)
  {
    if l.RegisterAdd? {
      RegisterStores(s, l.index, s', sc);
    } else {
      OldObject(s, l, s', sc);
      if l.Update? {
        UpdateStores(s, l.index, s', sc);
      } else if l.Click? {
        ClickStores(s, l.index, s', sc);
      } else if !IsCall(l) {
        OnlyCallsReport(s, l, s', sc);
      }
    }
  }

  /** Step `i` reported what is stored of the component in state `n`, and no step after it changed that. */
  ghost predicate LastReport(states: seq<State>, labels: seq<Label>, n: nat, sc: int, i: nat) {
    && i < n < |states| && i < |labels| && sc in states[n].ents
    && StoresAs(states[i], labels[i], states[n].ents[sc].comp, states[i + 1].foldOffset)
    && forall j :: i < j <= n ==> sc in states[j].ents && states[j].ents[sc].comp == states[n].ents[sc].comp
  }

  /**
   In every reachable state, what is stored of a component is one report that came
   with a registration, update or click, its rectangle moved by the fold offset at
   most once, and it has not changed since that step.
   */
  lemma {:induction false} StoredIsOneReport(states: seq<State>, labels: seq<Label>, n: nat, sc: int) returns (i: nat)
    requires IsRun(states, labels) && n < |states| && sc in states[n].ents
    ensures LastReport(states, labels, n, sc, i)
  {
    NothingAtStart(states[0], sc);
    var before := states[n - 1];
    assert StepAt(states, labels, n - 1);
    StepStores(before, labels[n - 1], states[n], sc);
    if sc in before.ents && states[n].ents[sc].comp == before.ents[sc].comp {
      i := StoredIsOneReport(states, labels, n - 1, sc);
      ReportStays(states, labels, n, sc, i);
    } else {
      i := n - 1;
    }
  }

  lemma ReportStays(states: seq<State>, labels: seq<Label>, n: nat, sc: int, i: nat)
    requires 0 < n < |states| && LastReport(states, labels, n - 1, sc, i)
    requires sc in states[n].ents && states[n].ents[sc].comp == states[n - 1].ents[sc].comp
    ensures LastReport(states, labels, n, sc, i)
  {
  }

  // The theorems

  /** The component is between a click and a grant that it led to, or in the grant. */
  predicate InProgress(s: State, sc: int) {
    InClick(s, sc) || sc in s.dialog.waits || InDialogGrant(s, sc)
  }

  /**
   A click that is granted without a dialog: its call was accepted at step `i`, the
   component lock has been held for it ever since, and the section gives what the type
   that was clicked allows, to the component's token, and nothing else to anyone.
   */
  lemma ClickGrantFollows(states: seq<State>, labels: seq<Label>, n: nat) returns (i: nat)
    requires RoomyRun(states, labels) && n < |labels| && labels[n].ClickGrant?
    ensures states[n].lock.Granting?
    ensures var sc := states[n].lock.scId;
            && i < n && Accepts(states[i], labels[i], states[n], sc)
            && (forall j :: i < j <= n ==> InClick(states[j], sc))
            && GivesOnly(states[n].perm, states[n + 1].perm, states[n].ents[sc].token,
                 ClickedType(states[i], labels[i], sc))
  {
    assert StepAt(states, labels, n);
    RunGrants(states, labels, n);
    ClickGrantGives(states[n], labels[n].answer);
    i := GrantingSince(states, labels, n, states[n].lock.scId);
  }

  /**
   A grant after a dialog: its first section ran at step `b`; the dialog was shown at
   step `h`, the component has waited ever since; the click was accepted at step `i`
   with nothing between it and the dialog. The section gives to the component's token
   what the component's type at `b` allows, and nothing else to anyone. That is the type
   that was clicked exactly when the last report before `b`, made at step `r`, says so.
   */
  lemma DialogGrantFollows(states: seq<State>, labels: seq<Label>, n: nat) returns (i: nat, h: nat, b: nat, r: nat)
    requires RoomyRun(states, labels) && n < |labels| && labels[n].DialogGrant?
    ensures states[n].mapLock.DialogGranting?
    ensures var sc := states[n].mapLock.scId;
            && b <= n && WaitHistory(states, labels, b, sc, i, h)
            && (forall j :: b < j <= n ==> InDialogGrant(states[j], sc))
            && LastReport(states, labels, b, sc, r)
            && SameOwnerOf(states[i], states[n], sc)
            && var (clicked, granted) := (ClickedType(states[i], labels[i], sc), states[b].ents[sc].comp.ty);
            && GivesOnly(states[n].perm, states[n + 1].perm, states[n].ents[sc].token, granted)
            && (granted == clicked <==> ReportOf(states[r], labels[r]).value.ty == clicked)
  {
    assert StepAt(states, labels, n);
    RunGrants(states, labels, n);
    DialogGrantGives(states[n], labels[n].answer);
    var sc := states[n].mapLock.scId;
    b := BeginOf(states, labels, n);
    i, h := WaitingSince(states, labels, b, sc);
    r := StoredIsOneReport(states, labels, b, sc);
    OwnerInGrant(states, labels, b, n, sc);
  }

  predicate InDialogGrant(s: State, sc: int) {
    s.mapLock.DialogGranting? && s.mapLock.scId == sc
  }

  /** The first section of the grant that a later one belongs to. */
  lemma BeginOf(states: seq<State>, labels: seq<Label>, n: nat) returns (b: nat)
    requires RoomyRun(states, labels) && n < |labels| && labels[n].DialogGrant? && Enabled(states[n], labels[n])
    ensures b <= n && Begins(states[b], labels[b], states[n].mapLock.scId, DialogType(states[n]))
    ensures states[n].mapLock.scId in states[b].dialog.waits
    ensures forall j :: b < j <= n ==> InDialogGrant(states[j], states[n].mapLock.scId)
  {
    var sc, ty := states[n].mapLock.scId, DialogType(states[n]);
    b := n;
    if !states[n].mapLock.pc.Begin? {
      b := BeganAt(states, labels, n, sc, ty);
    }
    RunWf(states, labels, b);
  }

  lemma OwnerStep(states: seq<State>, labels: seq<Label>, n: nat, sc: int)
    requires RoomyRun(states, labels) && n < |labels|
    requires sc in states[n].dialog.waits || InDialogGrant(states[n], sc)
    ensures SameOwnerOf(states[n], states[n + 1], sc)
  {
    RunWf(states, labels, n);
    assert StepAt(states, labels, n);
    WaitersKeepOwner(states[n], labels[n], states[n + 1], sc);
  }

  lemma {:induction false} OwnerInGrant(states: seq<State>, labels: seq<Label>, b: nat, n: nat, sc: int)
    requires RoomyRun(states, labels) && b <= n < |states| && sc in states[b].ents && sc in states[b].dialog.waits
    requires forall j :: b < j <= n ==> InDialogGrant(states[j], sc)
    ensures SameOwnerOf(states[b], states[n], sc)
  {
    if b < n {
      OwnerInGrant(states, labels, b, n - 1, sc);
      assert n - 1 == b || InDialogGrant(states[n - 1], sc);
      OwnerStep(states, labels, n - 1, sc);
    }
  }

  /**
   Whatever runs: a step that gives anything is a section of a grant. What is new
   belongs to the token of the component that is granted, and the component was clicked
   at step `i` by a process it is registered under, acceptably, and has been in
   progress ever since.
   */
  lemma PermissionFollowsClick(states: seq<State>, labels: seq<Label>, n: nat) returns (sc: int, i: nat)
    requires RoomyRun(states, labels) && n < |labels| && !NothingGiven(states[n].perm, states[n + 1].perm)
    ensures Grants(states[n], labels[n], sc) && sc in states[n].ents
    ensures GivesOnly(states[n].perm, states[n + 1].perm, states[n].ents[sc].token,
            GrantedType(states[n], labels[n], sc))
    ensures i < n && AcceptedClick(states[i], labels[i], sc) && SameOwnerOf(states[i], states[n], sc)
    ensures forall j :: i < j <= n ==> InProgress(states[j], sc)
  {
    assert StepAt(states, labels, n);
    RunGrants(states, labels, n);
    if labels[n].ClickGrant? {
      ClickGrantGives(states[n], labels[n].answer);
      sc := states[n].lock.scId;
      i := ClickGrantFollows(states, labels, n);
    } else if labels[n].DialogGrant? {
      DialogGrantGives(states[n], labels[n].answer);
      sc := states[n].mapLock.scId;
      var h, b, r;
      i, h, b, r := DialogGrantFollows(states, labels, n);
      forall j | i < j <= n ensures InProgress(states[j], sc) {
        assert j <= h ==> states[j].lock == Notifying(sc);
      }
    } else {
      StepGivesNothing(states[n], labels[n]);
    }
  }
}
