/**
 Whole calls and notices, each with the state it leaves behind, and proofs that they
 are runs of the state machine with nothing in between.
 */
module Calls {
  import opened Types
  import opened TaskNames
  import opened EventHandler
  import opened PermManager
  import opened Entity
  import opened FirstUseDialog
  import opened Registry
  import opened Service
  import opened ServiceTasks
  import Mal = MaliciousApps

  /** The steps lead from one state to the other. */
  ghost predicate Runs(s: State, labels: seq<Label>, s': State)
    decreases |labels|
  {
    if labels == [] then s' == s
    else
      var n := |labels| - 1;
      exists mid :: Runs(s, labels[..n], mid) && Step(mid, labels[n], s')
  }

  lemma RunsNone(s: State)
    ensures Runs(s, [], s)
  {
  }

  lemma RunsOneMore(s: State, labels: seq<Label>, mid: State, l: Label, s': State)
    requires Runs(s, labels, mid) && Step(mid, l, s')
    ensures Runs(s, labels + [l], s')
  {
    var more := labels + [l];
    assert more[..|more| - 1] == labels && more[|more| - 1] == l;
  }

  /** Two states that differ at most in what observers were shown. */
  predicate SameState(s: State, s': State) {
    s.(log := [], shown := map[]) == s'.(log := [], shown := map[])
  }

  // Registration and update

  /** A component that passed the checks gets its id and, if there is room, its place in the register. */
  function AfterAdd(s: State, c: Caller, report: Component, customAuthorized: bool): State {
    var id := FreshId(s);
    var (procs, res) := AddComponent(s.procs, s.saExit, c.pid, c.token, id);
    if res != SC_OK then s.(nextStart := id)
    else s.(nextStart := id, procs := procs, perm := StopExit(s.perm),
            ents := s.ents[id := EntityView(id, c.pid, c.token, report, customAuthorized, false, false)])
  }

  function AfterRegister(s: State, c: Caller, r: ReportInput): State {
    if Mal.Blocked(s.mal, c.pid, c.uid) || r.report.None? then s
    else if r.enhanceRes != SC_OK then s.(mal := Mal.Add(s.mal, c.pid))
    else AfterAdd(s.(mal := Mal.Reset(s.mal, c.pid)), c, r.report.value, r.customAuthorized)
  }

  function RegisterRes(s: State, c: Caller, r: ReportInput): int {
    if Mal.Blocked(s.mal, c.pid, c.uid) then SC_ENHANCE_ERROR_IN_MALICIOUS_LIST
    else if r.report.None? then SC_SERVICE_ERROR_COMPONENT_INFO_INVALID
    else if r.enhanceRes != SC_OK then r.enhanceRes
    else AddComponent(s.procs, s.saExit, c.pid, c.token, FreshId(s)).1
  }

  /** What a live process always does: it calls with the token it is registered with. */
  predicate SameToken(s: State, c: Caller) {
    c.pid in s.procs ==> s.procs[c.pid].token == c.token
  }

  predicate Admitted(s: State, c: Caller, r: ReportInput) {
    !Mal.Blocked(s.mal, c.pid, c.uid) && r.report.Some? && r.enhanceRes == SC_OK
  }

  lemma AddFollows(s: State, c: Caller, r: ReportInput)
    requires s.lock == Free && SameToken(s, c) && Admitted(s, c, r)
    ensures Step(DoRegister(s, c, r), RegisterAdd(|s.starting|), AfterRegister(s, c, r))
  {
    var (s1, k) := (DoRegister(s, c, r), |s.starting|);
    assert s1.starting[..k] + s1.starting[k + 1..] == s.starting;
    assert s1.starting[k] == Starting(c, FreshId(s), r.report.value, r.customAuthorized);
    assert DoRegisterAdd(s1, k) == AfterRegister(s, c, r);
  }

  /** A registration is its checks and then its place in the register, when nothing comes between them. */
  lemma RegisterIsItsSteps(s: State, c: Caller, r: ReportInput) returns (labels: seq<Label>)
    requires Enabled(s, Register(c, r)) && SameToken(s, c)
    ensures Runs(s, labels, AfterRegister(s, c, r))
    ensures labels == [Register(c, r)] || labels == [Register(c, r), RegisterAdd(|s.starting|)]
  {
    var s1 := DoRegister(s, c, r);
    labels := [] + [Register(c, r)];
    RunsNone(s);
    RunsOneMore(s, [], s, Register(c, r), s1);
    if Admitted(s, c, r) {
      AddFollows(s, c, r);
      RunsOneMore(s, labels, s1, RegisterAdd(|s.starting|), AfterRegister(s, c, r));
      labels := labels + [RegisterAdd(|s.starting|)];
    }
  }

  /**
   A registration succeeds exactly when the component is in the register afterwards and was not
   before. The object kept for it is exactly what its caller reported, with the authorisation its
   application was found to have; the exit is taken back.
   */
  lemma RegisterSucceeds(s: State, c: Caller, r: ReportInput)
    requires FreshId(s) !in LiveIds(s.procs)
    ensures RegisterRes(s, c, r) == SC_OK <==> HasComponent(AfterRegister(s, c, r).procs, c.pid, FreshId(s))
    ensures var (s', id) := (AfterRegister(s, c, r), FreshId(s));
            if RegisterRes(s, c, r) == SC_OK then
              && r.report.Some?
              && s'.ents ==
                 s.ents[id := EntityView(id, c.pid, c.token, r.report.value, r.customAuthorized, false, false)]
              && (forall task :: task in s'.perm.tasks <==> task in s.perm.tasks && task.name != DELAY_EXIT_NAME)
            else s'.procs == s.procs && s'.ents == s.ents && s'.perm == s.perm
  {
    var id := FreshId(s);
    assert HasComponent(s.procs, c.pid, id) ==> id in LiveIds(s.procs);
    forall task {
      WithoutMember(s.perm.tasks, {DELAY_EXIT_NAME}, task);
    }
  }

  /** What a caller is told: the first check that fails decides. A list may grow to 501 components. */
  lemma RegisterAnswers(s: State, c: Caller, r: ReportInput)
    ensures RegisterRes(s, c, r) ==
            if c.uid != 0 && c.pid in s.mal.listed then SC_ENHANCE_ERROR_IN_MALICIOUS_LIST
            else if r.report.None? then SC_SERVICE_ERROR_COMPONENT_INFO_INVALID
            else if r.enhanceRes != SC_OK then r.enhanceRes
            else if s.saExit then SC_SERVICE_ERROR_SERVICE_NOT_EXIST
            else if c.pid in s.procs && |s.procs[c.pid].comps| >= 501 then SC_SERVICE_ERROR_VALUE_INVALID
            else SC_OK
    ensures AfterRegister(s, c, r).mal ==
            if (c.uid != 0 && c.pid in s.mal.listed) || r.report.None? then s.mal
            else if r.enhanceRes != SC_OK then Mal.Add(s.mal, c.pid) else Mal.Reset(s.mal, c.pid)
  {
  }

  function AfterUpdate(s: State, scId: int, c: Caller, r: ReportInput): State {
    if Mal.Blocked(s.mal, c.pid, c.uid) then s else DoUpdate(s, scId, c, r)
  }

  function UpdateRes(s: State, scId: int, c: Caller, r: ReportInput): int {
    if Mal.Blocked(s.mal, c.pid, c.uid) then SC_ENHANCE_ERROR_IN_MALICIOUS_LIST
    else if !HasComponent(s.procs, c.pid, scId) then SC_SERVICE_ERROR_COMPONENT_NOT_EXIST
    else if r.report.None? then SC_SERVICE_ERROR_COMPONENT_INFO_INVALID
    else r.enhanceRes
  }

  /** What a caller of an update is told, and what it counts for. */
  lemma UpdateAnswers(s: State, scId: int, c: Caller, r: ReportInput)
    requires HasComponent(s.procs, c.pid, scId) ==> scId in s.ents
    ensures UpdateRes(s, scId, c, r) ==
            if c.uid != 0 && c.pid in s.mal.listed then SC_ENHANCE_ERROR_IN_MALICIOUS_LIST
            else if !(c.pid in s.procs && scId in s.procs[c.pid].comps) then SC_SERVICE_ERROR_COMPONENT_NOT_EXIST
            else if r.report.None? then SC_SERVICE_ERROR_COMPONENT_INFO_INVALID
            else r.enhanceRes
    ensures AfterUpdate(s, scId, c, r).mal ==
            if (c.uid != 0 && c.pid in s.mal.listed) || !(c.pid in s.procs && scId in s.procs[c.pid].comps)
               || r.report.None? then s.mal
            else if r.enhanceRes != SC_OK then Mal.Add(s.mal, c.pid) else Mal.Reset(s.mal, c.pid)
  {
  }

  lemma PassesCheck(s: State, call: Call)
    requires !Mal.Blocked(s.mal, call.caller.pid, call.caller.uid)
    requires call.ClickCall? ==> call.click.remotes >= REPORT_REMOTE_OBJECT_SIZE
    ensures var s1 := DoCallCheck(s, call);
            && |s1.passed| == |s.passed| + 1 && s1.passed[|s.passed|] == call && DropCall(s1, |s.passed|) == s
            && s1 == s.(passed := s1.passed)
  {
    var s1 := DoCallCheck(s, call);
    assert s1.passed[..|s.passed|] + s1.passed[|s.passed| + 1..] == s.passed;
  }

  /** An update is its check and then its locked section, when nothing comes between them. */
  lemma UpdateIsItsSteps(s: State, scId: int, c: Caller, r: ReportInput) returns (labels: seq<Label>)
    requires s.lock == Free
    ensures Runs(s, labels, AfterUpdate(s, scId, c, r))
    ensures var call := UpdateCall(scId, c, r);
            labels == [CallCheck(call)] || labels == [CallCheck(call), Update(|s.passed|)]
  {
    var call := UpdateCall(scId, c, r);
    var s1 := DoCallCheck(s, call);
    labels := [] + [CallCheck(call)];
    RunsOneMore(s, [], s, CallCheck(call), s1);
    if !Mal.Blocked(s.mal, c.pid, c.uid) {
      PassesCheck(s, call);
      RunsOneMore(s, labels, s1, Update(|s.passed|), AfterUpdate(s, scId, c, r));
      labels := labels + [Update(|s.passed|)];
    }
  }

  /** An update succeeds only if the report is stored, and otherwise stores nothing. */
  lemma UpdateSucceeds(s: State, scId: int, c: Caller, r: ReportInput)
    requires HasComponent(s.procs, c.pid, scId) ==> scId in s.ents
    ensures var s' := AfterUpdate(s, scId, c, r);
            if UpdateRes(s, scId, c, r) == SC_OK then
              r.report.Some? && scId in s.ents && s'.ents == s.ents[scId := s.ents[scId].(comp := r.report.value)]
            else s'.ents == s.ents
  {
  }

  function UnregisterRes(s: State, scId: int, c: Caller): int {
    if scId < 0 then SC_SERVICE_ERROR_VALUE_INVALID else DeleteComponent(s.procs, c.pid, scId).1
  }

  /** Only the process that lists a component can take it off the register. */
  lemma UnregisterAnswers(s: State, scId: int, c: Caller)
    ensures UnregisterRes(s, scId, c) ==
            if scId < 0 then SC_SERVICE_ERROR_VALUE_INVALID
            else if c.pid in s.procs && scId in s.procs[c.pid].comps then SC_OK
            else SC_SERVICE_ERROR_COMPONENT_NOT_EXIST
  {
  }

  // A click

  function AfterClick(s: State, scId: int, c: Caller, input: ClickInput, a: DialogAnswer, first: Answer, second: Answer)
    : State
  {
    if input.remotes < REPORT_REMOTE_OBJECT_SIZE || Mal.Blocked(s.mal, c.pid, c.uid)
       || !HasComponent(s.procs, c.pid, scId) || scId !in s.ents then s
    else
      var s1 := AfterJudgement(s, scId, c.pid, input);
      if !JudgeClick(s.ents[scId], input, s.foldOffset).accepted then s1 else AfterStart(s1, scId, a, first, second)
  }

  function AfterJudgement(s: State, scId: int, pid: int, input: ClickInput): State
    requires scId in s.ents
  {
    var v := JudgeClick(s.ents[scId], input, s.foldOffset);
    s.(ents := s.ents[scId := v.entity], foldOffset := v.offset, mal := MalAfter(s.mal, pid, v.count))
  }

  function AfterStart(s: State, scId: int, a: DialogAnswer, first: Answer, second: Answer): State
    requires scId in s.ents
  {
    var e := s.ents[scId];
    var (d, res) := Notify(s.dialog, scId, OwnerOfEntity(e), e.comp.ty, a);
    if res != SC_OK then s.(dialog := d)
    else s.(dialog := d, ents := s.ents[scId := e.(isGrant := true)],
            perm := GrantUninterrupted(s.perm, e.token, e.comp.ty, Begin, first, second).0)
  }

  function StartRes(s: State, scId: int, a: DialogAnswer, first: Answer, second: Answer): int
    requires scId in s.ents
  {
    var e := s.ents[scId];
    var res := Notify(s.dialog, scId, OwnerOfEntity(e), e.comp.ty, a).1;
    if res != SC_OK then res else GrantUninterrupted(s.perm, e.token, e.comp.ty, Begin, first, second).1
  }

  function ClickRes(s: State, scId: int, c: Caller, input: ClickInput, a: DialogAnswer, first: Answer, second: Answer)
    : int
  {
    if input.remotes < REPORT_REMOTE_OBJECT_SIZE then SC_SERVICE_ERROR_VALUE_INVALID
    else if Mal.Blocked(s.mal, c.pid, c.uid) then SC_ENHANCE_ERROR_IN_MALICIOUS_LIST
    else if !HasComponent(s.procs, c.pid, scId) || scId !in s.ents then SC_SERVICE_ERROR_COMPONENT_NOT_EXIST
    else
      var v := JudgeClick(s.ents[scId], input, s.foldOffset);
      if !v.accepted then v.res else StartRes(AfterJudgement(s, scId, c.pid, input), scId, a, first, second)
  }

  function Granted(s: State, first: Answer, second: Answer): State
    requires s.lock.Granting? && s.lock.scId in s.ents
  {
    var e := s.ents[s.lock.scId];
    s.(perm := GrantUninterrupted(s.perm, e.token, e.comp.ty, s.lock.pc, first, second).0,
       ents := s.ents[s.lock.scId := e.(isGrant := true)], lock := Free)
  }

  lemma OneSection(s: State, first: Answer, second: Answer)
    requires s.lock.Granting? && s.lock.scId in s.ents && !s.lock.pc.Finished?
    ensures var s' := DoClickGrant(s, if s.lock.pc.Begin? then first else second);
            if s'.lock.Granting? then
              && s'.lock.scId in s'.ents && !s'.lock.pc.Finished? && SectionsLeft(s'.lock.pc) < SectionsLeft(s.lock.pc)
              && Granted(s', first, second) == Granted(s, first, second)
            else s' == Granted(s, first, second)
  {
    var (sc, e) := (s.lock.scId, s.ents[s.lock.scId]);
    var s' := DoClickGrant(s, if s.lock.pc.Begin? then first else second);
    var next := GrantSection(s.perm, e.token, e.comp.ty, s.lock.pc, if s.lock.pc.Begin? then first else second);
    assert GrantUninterrupted(s.perm, e.token, e.comp.ty, s.lock.pc, first, second)
        == GrantUninterrupted(next.0, e.token, e.comp.ty, next.1, first, second);
    assert s'.ents[sc := s'.ents[sc].(isGrant := true)] == s.ents[sc := e.(isGrant := true)];
  }

  lemma ClickSectionRuns(s0: State, labels: seq<Label>, s: State, a: Answer)
    requires Runs(s0, labels, s) && s.lock.Granting? && s.lock.scId in s.ents && !s.lock.pc.Finished?
    ensures Runs(s0, labels + [ClickGrant(a)], DoClickGrant(s, a))
  {
    RunsOneMore(s0, labels, s, ClickGrant(a), DoClickGrant(s, a));
  }

  /** The steps of a grant that holds the component lock. */
  lemma {:induction false} GrantSteps(s0: State, labels: seq<Label>, s: State, first: Answer, second: Answer)
    returns (more: seq<Label>)
    requires Runs(s0, labels, s) && s.lock.Granting? && s.lock.scId in s.ents && !s.lock.pc.Finished?
    ensures Runs(s0, more, Granted(s, first, second))
    ensures labels <= more && forall i :: |labels| <= i < |more| ==> more[i].ClickGrant?
    decreases SectionsLeft(s.lock.pc)
  {
    var a := if s.lock.pc.Begin? then first else second;
    var s' := DoClickGrant(s, a);
    OneSection(s, first, second);
    ClickSectionRuns(s0, labels, s, a);
    more := labels + [ClickGrant(a)];
    if s'.lock.Granting? {
      more := GrantSteps(s0, more, s', first, second);
    }
  }

  /** The steps of an accepted click from its dialog on. */
  lemma StartSteps(s0: State, labels: seq<Label>, s: State, a: DialogAnswer, first: Answer, second: Answer)
    returns (more: seq<Label>, s': State)
    requires Runs(s0, labels, s) && s.lock.Notifying? && s.lock.scId in s.ents && s.mapLock == MapFree
    ensures Runs(s0, more, s') && SameState(s', AfterStart(s.(lock := Free), s.lock.scId, a, first, second))
    ensures labels + [ClickNotify(a)] <= more && forall i :: |labels| < i < |more| ==> more[i].ClickGrant?
  {
    s' := DoNotify(s, a);
    RunsOneMore(s0, labels, s, ClickNotify(a), s');
    more := labels + [ClickNotify(a)];
    if s'.lock.Granting? {
      more := GrantSteps(s0, more, s', first, second);
      s' := Granted(s', first, second);
    }
  }

  lemma Judged(s: State, scId: int, c: Caller, input: ClickInput)
    requires s.lock == Free
    ensures var s' := DoClick(s, scId, c, input);
            if !HasComponent(s.procs, c.pid, scId) || scId !in s.ents then s' == s
            else
              && SameState(s'.(lock := Free), AfterJudgement(s, scId, c.pid, input))
              && s'.lock == if JudgeClick(s.ents[scId], input, s.foldOffset).accepted then Notifying(scId) else Free
  {
  }

  /** A click is its check, its judgement, then the dialog, then the grant, when nothing comes between them. */
  lemma ClickIsItsSteps(s: State, scId: int, c: Caller, input: ClickInput, a: DialogAnswer, first: Answer,
        second: Answer)
    returns (labels: seq<Label>, s': State)
    requires s.lock == Free && s.mapLock == MapFree
    ensures Runs(s, labels, s') && SameState(s', AfterClick(s, scId, c, input, a, first, second))
    ensures |labels| >= 1 && labels[0] == CallCheck(ClickCall(scId, c, input))
    ensures |labels| >= 2 ==> labels[1] == Click(|s.passed|)
    ensures |labels| >= 3 ==> labels[2] == ClickNotify(a) && forall i :: 3 <= i < |labels| ==> labels[i].ClickGrant?
  {
    var call := ClickCall(scId, c, input);
    var s1 := DoCallCheck(s, call);
    s', labels := s1, [] + [CallCheck(call)];
    RunsNone(s);
    RunsOneMore(s, [], s, CallCheck(call), s1);
    if !Mal.Blocked(s.mal, c.pid, c.uid) && input.remotes >= REPORT_REMOTE_OBJECT_SIZE {
      PassesCheck(s, call);
      labels, s' := JudgedSteps(s, labels, s1, scId, c, input, a, first, second);
    }
  }

  lemma JudgementRuns(s: State, labels: seq<Label>, s1: State, scId: int, c: Caller, input: ClickInput)
    requires s.lock == Free && Runs(s, labels, s1) && s1 == s.(passed := s1.passed) && |s1.passed| == |s.passed| + 1
    requires s1.passed[|s.passed|] == ClickCall(scId, c, input) && DropCall(s1, |s.passed|) == s
    ensures Runs(s, labels + [Click(|s.passed|)], DoClick(s, scId, c, input))
  {
    RunsOneMore(s, labels, s1, Click(|s.passed|), DoClick(s, scId, c, input));
  }

  lemma JudgedSteps(s: State, labels: seq<Label>, s1: State, scId: int, c: Caller, input: ClickInput,
      a: DialogAnswer, first: Answer, second: Answer)
    returns (more: seq<Label>, s': State)
    requires s.lock == Free && s.mapLock == MapFree && Runs(s, labels, s1) && |labels| == 1
    requires s1 == s.(passed := s1.passed) && |s1.passed| == |s.passed| + 1
    requires s1.passed[|s.passed|] == ClickCall(scId, c, input) && DropCall(s1, |s.passed|) == s
    requires !Mal.Blocked(s.mal, c.pid, c.uid) && input.remotes >= REPORT_REMOTE_OBJECT_SIZE
    ensures Runs(s, more, s') && SameState(s', AfterClick(s, scId, c, input, a, first, second))
    ensures labels + [Click(|s.passed|)] <= more
    ensures |more| >= 3 ==> more[2] == ClickNotify(a) && forall i :: 3 <= i < |more| ==> more[i].ClickGrant?
  {
    s' := DoClick(s, scId, c, input);
    Judged(s, scId, c, input);
    JudgementRuns(s, labels, s1, scId, c, input);
    more := labels + [Click(|s.passed|)];
    if s'.lock.Notifying? {
      var judged := s'.(lock := Free);
      more, s' := StartSteps(s, more, s', a, first, second);
      SameStart(judged, AfterJudgement(s, scId, c.pid, input), scId, a, first, second);
    }
  }

  lemma SameStart(s: State, s': State, scId: int, a: DialogAnswer, first: Answer, second: Answer)
    requires SameState(s, s') && scId in s.ents
    ensures SameState(AfterStart(s, scId, a, first, second), AfterStart(s', scId, a, first, second))
  {
  }

  /**
   What the application of a click that is not acceptable is told: the first thing that
   failed decides. It is told that all is well only if it may read the pasteboard anyway.
   Nothing is granted and no dialog is shown.
   */
  lemma ClickRefused(s: State, scId: int, c: Caller, input: ClickInput, a: DialogAnswer, first: Answer, second: Answer)
    requires HasComponent(s.procs, c.pid, scId) ==> scId in s.ents && !Acceptable(s.ents[scId], input, s.foldOffset)
    ensures ClickRes(s, scId, c, input, a, first, second) ==
            if input.remotes < 2 then SC_SERVICE_ERROR_VALUE_INVALID
            else if c.uid != 0 && c.pid in s.mal.listed then SC_ENHANCE_ERROR_IN_MALICIOUS_LIST
            else if !(c.pid in s.procs && scId in s.procs[c.pid].comps) then SC_SERVICE_ERROR_COMPONENT_NOT_EXIST
            else if AlreadyGranted(s.ents[scId], input) then SC_OK
            else if !MessageFine(s.ents[scId], input) then SC_SERVICE_ERROR_CLICK_EVENT_INVALID
            else if !ReportFine(s.ents[scId], input) || !RectFine(s.ents[scId], input) then
              SC_SERVICE_ERROR_COMPONENT_INFO_INVALID
            else if input.enhanceRes != SC_OK then input.enhanceRes
            else SC_SERVICE_ERROR_CLICK_EVENT_INVALID
    ensures var s' := AfterClick(s, scId, c, input, a, first, second);
            s' == s.(ents := s'.ents, foldOffset := s'.foldOffset, mal := s'.mal)
  {
    if scId in s.ents && !Acceptable(s.ents[scId], input, s.foldOffset) {
      RefusedClick(s.ents[scId], input, s.foldOffset);
      ClickSoundness(s.ents[scId], input, s.foldOffset);
    }
  }

  /**
   When a click counts for the malicious list: a report the enhanced check refuses and a
   forged event of an otherwise genuine click each count as a failure; any other click that
   gets as far as that check ends the row of failures.
   */
  lemma ClickCountsFailures(s: State, scId: int, c: Caller, input: ClickInput, a: DialogAnswer, first: Answer,
        second: Answer)
    requires input.remotes >= 2 && !(c.uid != 0 && c.pid in s.mal.listed)
    requires c.pid in s.procs && scId in s.procs[c.pid].comps && scId in s.ents
    ensures var (e, mal) := (s.ents[scId], AfterClick(s, scId, c, input, a, first, second).mal);
            && DoClick(s, scId, c, input).mal == mal
            && if !Reported(e, input) then mal == s.mal
               else if input.enhanceRes != SC_OK then mal == Mal.Add(s.mal, c.pid)
               else if EventFine(input.report.value, input, s.foldOffset) && Forged(input) then
                 mal == Mal.Add(Mal.Reset(s.mal, c.pid), c.pid)
               else mal == Mal.Reset(s.mal, c.pid)
  {
    ClickCounts(s.ents[scId], input, s.foldOffset);
  }

  /**
   What an acceptable click of one's own component comes to. A location click only
   ever opens a dialog; a save click is granted at once exactly when its token has
   the bit; a paste click is granted at once.
   */
  lemma ClickOutcome(s: State, scId: int, c: Caller, input: ClickInput, a: DialogAnswer, first: Answer, second: Answer)
    requires input.remotes >= REPORT_REMOTE_OBJECT_SIZE && !Mal.Blocked(s.mal, c.pid, c.uid)
    requires HasComponent(s.procs, c.pid, scId) && scId in s.ents && Acceptable(s.ents[scId], input, s.foldOffset)
    requires !a.callerTokenNull && !a.callbackNull
    ensures var (t, ty) := (s.ents[scId].token, input.report.value.ty);
            var s' := AfterClick(s, scId, c, input, a, first, second);
            var res := ClickRes(s, scId, c, input, a, first, second);
            if ty == Location || (ty == Save && !SaveBitSet(s.dialog, t)) then
              && s'.perm == s.perm && (a.displayOk && a.startRes == 0 ==> scId in s'.dialog.waits)
              && res == (if a.displayOk && a.startRes == 0 then SC_SERVICE_ERROR_WAIT_FOR_DIALOG_CLOSE
                         else SC_SERVICE_ERROR_START_FIRST_USE_DIALOG_FAILED)
            else
              && s'.dialog == s.dialog && s'.ents[scId].isGrant
              && res == (if GrantSucceeds(t, ty, first, second) then SC_OK else SC_SERVICE_ERROR_PERMISSION_OPER_FAIL)
              && (res == SC_OK ==> GivesType(s.perm, s'.perm, t, ty))
              && (res != SC_OK ==> s'.perm.held <= s.perm.held && s'.perm.counts == s.perm.counts)
  {
    ClickSoundness(s.ents[scId], input, s.foldOffset);
    ClickStoresType(s.ents[scId], input, s.foldOffset);
    var (t, ty) := (s.ents[scId].token, input.report.value.ty);
    GrantMeaning(s.perm, t, ty, first, second);
  }

  lemma ClickStoresType(e: EntityView, input: ClickInput, offset: int)
    requires JudgeClick(e, input, offset).accepted
    ensures input.report.Some? && JudgeClick(e, input, offset).entity.comp.ty == input.report.value.ty
    ensures JudgeClick(e, input, offset).entity.token == e.token
  {
  }

  // A dialog is closed

  /** What the callback of a closed dialog leaves, when its component still waits. */
  function AfterDialog(s: State, scId: int, first: Answer, second: Answer): State
    requires scId in s.ents
  {
    var e := s.ents[scId];
    var (perm, res) := GrantUninterrupted(s.perm, e.token, e.comp.ty, Begin, first, second);
    var (dialog, tasks) := DialogCloses(s.dialog, scId, e.token, e.comp.ty, res);
    s.(ents := s.ents[scId := e.(isGrant := true)], dialog := dialog, perm := perm.(tasks := perm.tasks + tasks))
  }

  /**
   What a closed dialog comes to: its component no longer waits, whatever the grant gave;
   only a save grant that succeeded sets the token's bit, and has that written down.
   */
  lemma DialogOutcome(s: State, scId: int, first: Answer, second: Answer)
    requires scId in s.dialog.waits && scId in s.ents
    ensures var (s', t, ty) := (AfterDialog(s, scId, first, second), s.ents[scId].token, s.ents[scId].comp.ty);
            && s'.dialog.waits == s.dialog.waits - {scId}
            && s'.ents == s.ents[scId := s.ents[scId].(isGrant := true)]
            && (forall u: TokenId :: SaveBitSet(s'.dialog, u) <==>
                  SaveBitSet(s.dialog, u) || (u == t && ty == Save && GrantSucceeds(t, ty, first, second)))
            && if GrantSucceeds(t, ty, first, second) then
                 && GivesType(s.perm, s'.perm, t, ty)
                 && (ty == Save ==> Task("", 0, SaveRecord) in s'.perm.tasks)
               else
                 && s'.perm.held <= s.perm.held && s'.perm.counts == s.perm.counts
                 && s'.dialog.firstUse == s.dialog.firstUse
  {
    var (t, ty) := (s.ents[scId].token, s.ents[scId].comp.ty);
    GrantMeaning(s.perm, t, ty, first, second);
  }

  /** Only a dialog closed with result 0, of a component that waits, begins a grant; any other changes nothing. */
  lemma ClosingBegins(s: State, scId: int, result: int, s': State)
    requires Step(s, DialogClosed(scId, result), s')
    ensures if result == 0 && scId in s.dialog.waits then
              s' == s.(mapLock := s'.mapLock, log := s'.log) && s'.mapLock == DialogGranting(scId, Begin, Unknown)
            else s' == s
  {
  }

  /** What is left when a grant after a dialog ends with `res`. */
  function DialogEnds(s: State, perm: PermState, ty: SecCompType, res: int): State
    requires s.mapLock.DialogGranting? && s.mapLock.scId in s.ents
  {
    var scId := s.mapLock.scId;
    var e := s.ents[scId];
    var s1 := s.(perm := perm, ents := s.ents[scId := e.(isGrant := true)], mapLock := MapFree,
                 dialog := s.dialog.(waits := s.dialog.waits - {scId}));
    if res != SC_OK then s1
    else s1.(closing := s.closing + [Closing(scId, ShownType(s, scId), ty)],
           log := s.log + [DialogOk(scId, e.token, ty)])
  }

  function DialogGranted(s: State, first: Answer, second: Answer): State
    requires s.mapLock.DialogGranting? && s.mapLock.scId in s.ents
  {
    var (perm, res) :=
      GrantUninterrupted(s.perm, s.ents[s.mapLock.scId].token, DialogType(s), s.mapLock.pc, first, second);
    DialogEnds(s, perm, DialogType(s), res)
  }

  lemma SectionGoesOn(s: State, a: Answer)
    requires s.mapLock.DialogGranting? && s.mapLock.scId in s.ents && !s.mapLock.pc.Finished?
    ensures var (s', ty) := (DoDialogGrant(s, a), DialogType(s));
            var (perm, pc) := GrantSection(s.perm, s.ents[s.mapLock.scId].token, ty, s.mapLock.pc, a);
            if pc.Finished? then s' == DialogEnds(s, perm, ty, pc.res)
            else
              && s'.mapLock == DialogGranting(s.mapLock.scId, pc, ty) && !pc.Begin? && s'.mapLock.scId in s'.ents
              && s'.perm == perm && s'.ents[s.mapLock.scId].token == s.ents[s.mapLock.scId].token
              && forall p, res :: DialogEnds(s', p, ty, res) == DialogEnds(s, p, ty, res)
  {
    var sc := s.mapLock.scId;
    var s' := DoDialogGrant(s, a);
    assert s.ents[sc := s.ents[sc].(isGrant := true)][sc := s.ents[sc].(isGrant := true)]
        == s.ents[sc := s.ents[sc].(isGrant := true)];
  }

  lemma OneDialogSection(s: State, first: Answer, second: Answer)
    requires s.mapLock.DialogGranting? && s.mapLock.scId in s.ents && !s.mapLock.pc.Finished?
    ensures var s' := DoDialogGrant(s, if s.mapLock.pc.Begin? then first else second);
            if s'.mapLock.DialogGranting? then
              && s'.mapLock.scId in s'.ents && !s'.mapLock.pc.Finished?
              && SectionsLeft(s'.mapLock.pc) < SectionsLeft(s.mapLock.pc)
              && DialogGranted(s', first, second) == DialogGranted(s, first, second)
            else s' == DialogGranted(s, first, second)
  {
    var a := if s.mapLock.pc.Begin? then first else second;
    var (t, ty) := (s.ents[s.mapLock.scId].token, DialogType(s));
    SectionGoesOn(s, a);
    var next := GrantSection(s.perm, t, ty, s.mapLock.pc, a);
    assert GrantUninterrupted(s.perm, t, ty, s.mapLock.pc, first, second)
        == GrantUninterrupted(next.0, t, ty, next.1, first, second);
  }

  lemma DialogSectionRuns(s0: State, labels: seq<Label>, s: State, a: Answer)
    requires Runs(s0, labels, s) && s.mapLock.DialogGranting? && s.mapLock.scId in s.ents && !s.mapLock.pc.Finished?
    ensures Runs(s0, labels + [DialogGrant(a)], DoDialogGrant(s, a))
  {
    RunsOneMore(s0, labels, s, DialogGrant(a), DoDialogGrant(s, a));
  }

  lemma {:induction false} DialogGrantSteps(s0: State, labels: seq<Label>, s: State, first: Answer, second: Answer)
    returns (more: seq<Label>)
    requires Runs(s0, labels, s) && s.mapLock.DialogGranting? && s.mapLock.scId in s.ents && !s.mapLock.pc.Finished?
    ensures Runs(s0, more, DialogGranted(s, first, second))
    ensures labels <= more && forall i :: |labels| <= i < |more| ==> more[i].DialogGrant?
    decreases SectionsLeft(s.mapLock.pc)
  {
    var a := if s.mapLock.pc.Begin? then first else second;
    var s' := DoDialogGrant(s, a);
    OneDialogSection(s, first, second);
    DialogSectionRuns(s0, labels, s, a);
    more := labels + [DialogGrant(a)];
    if s'.mapLock.DialogGranting? {
      more := DialogGrantSteps(s0, more, s', first, second);
    }
  }

  /** The state after the grant of a closed dialog. */
  function Closed(s: State, scId: int, first: Answer, second: Answer): State
    requires scId in s.dialog.waits && scId in s.ents
  {
    DialogGranted(DoDialogClosed(s, scId, ON_DIALOG_CLOSED), first, second)
  }

  lemma ClosedState(s: State, scId: int, first: Answer, second: Answer)
    requires s.mapLock == MapFree && scId in s.dialog.waits && scId in s.ents
    ensures var e := s.ents[scId];
            var (perm, res) := GrantUninterrupted(s.perm, e.token, e.comp.ty, Begin, first, second);
            var s1 := Closed(s, scId, first, second);
            && SameState(s1.(closing := s.closing),
                         s.(perm := perm, ents := s.ents[scId := e.(isGrant := true)],
                            dialog := s.dialog.(waits := s.dialog.waits - {scId})))
            && s1.closing == (if res == SC_OK then s.closing + [Closing(scId, ShownType(s, scId), e.comp.ty)]
                 else s.closing)
  {
  }

  lemma BitFollows(s: State, scId: int, first: Answer, second: Answer)
    requires s.mapLock == MapFree && scId in s.dialog.waits && scId in s.ents
    ensures var s1 := Closed(s, scId, first, second);
            if s1.closing == s.closing then SameState(s1, AfterDialog(s, scId, first, second))
            else
              && |s1.closing| == |s.closing| + 1 && s1.closing[|s.closing|].scId == scId && s1.mapLock == MapFree
              && scId in s1.ents
              && SameState(DoSetFirstUseBit(s1, |s.closing|), AfterDialog(s, scId, first, second))
  {
    var s1 := Closed(s, scId, first, second);
    ClosedState(s, scId, first, second);
    if s1.closing != s.closing {
      assert s1.closing[..|s.closing|] + s1.closing[|s.closing| + 1..] == s.closing;
    }
  }

  lemma ClosedRuns(s: State, scId: int, first: Answer, second: Answer) returns (labels: seq<Label>)
    requires s.mapLock == MapFree && scId in s.dialog.waits && scId in s.ents
    ensures Runs(s, labels, Closed(s, scId, first, second))
    ensures |labels| >= 1 && labels[0] == DialogClosed(scId, ON_DIALOG_CLOSED)
    ensures forall i :: 1 <= i < |labels| ==> labels[i].DialogGrant?
  {
    var s1 := DoDialogClosed(s, scId, ON_DIALOG_CLOSED);
    RunsNone(s);
    RunsOneMore(s, [], s, DialogClosed(scId, ON_DIALOG_CLOSED), s1);
    labels := [] + [DialogClosed(scId, ON_DIALOG_CLOSED)];
    labels := DialogGrantSteps(s, labels, s1, first, second);
  }

  /**
   The callback of a closed dialog is the closing, the sections of the grant and, if the
   grant succeeds, the section that sets the bit, when nothing comes between them.
   */
  lemma DialogIsItsSteps(s: State, scId: int, first: Answer, second: Answer) returns (labels: seq<Label>, s': State)
    requires s.mapLock == MapFree && scId in s.dialog.waits && scId in s.ents
    ensures Runs(s, labels, s') && SameState(s', AfterDialog(s, scId, first, second))
    ensures |labels| >= 1 && labels[0] == DialogClosed(scId, ON_DIALOG_CLOSED)
    ensures forall i :: 1 <= i < |labels| ==> labels[i].DialogGrant? || labels[i] == SetFirstUseBit(|s.closing|)
  {
    labels := ClosedRuns(s, scId, first, second);
    s' := Closed(s, scId, first, second);
    BitFollows(s, scId, first, second);
    if s'.closing != s.closing {
      var k := |s.closing|;
      RunsOneMore(s, labels, s', SetFirstUseBit(k), DoSetFirstUseBit(s', k));
      s', labels := DoSetFirstUseBit(s', k), labels + [SetFirstUseBit(k)];
    }
  }

  // Processes

  /** The application manager's death, one process after the other. */
  function RevokeEverything(p: PermState, procs: Procs, order: seq<int>): PermState
    requires forall i :: 0 <= i < |order| ==> order[i] in procs
    decreases |order|
  {
    if order == [] then p
    else
      var t := procs[order[0]].token;
      RevokeEverything(RevokeSaveAll(CancelRevokeAll(RevokeNow(p, t), t), t), procs, order[1..])
  }

  lemma {:induction false} RevokeOneMore(p: PermState, procs: Procs, order: seq<int>, pid: int)
    requires pid in procs && forall i :: 0 <= i < |order| ==> order[i] in procs
    ensures var t := procs[pid].token;
            RevokeEverything(p, procs, order + [pid])
            == RevokeSaveAll(CancelRevokeAll(RevokeNow(RevokeEverything(p, procs, order), t), t), t)
    decreases |order|
  {
    if order == [] {
      assert (order + [pid])[1..] == [];
    } else {
      var t := procs[order[0]].token;
      RevokeOneMore(RevokeSaveAll(CancelRevokeAll(RevokeNow(p, t), t), t), procs, order[1..], pid);
      assert (order + [pid])[1..] == order[1..] + [pid];
    }
  }

  lemma {:induction false} SameTokensRevoke(p: PermState, procs: Procs, procs': Procs, order: seq<int>)
    requires forall i :: 0 <= i < |order| ==> order[i] in procs && order[i] in procs'
    requires forall pid :: pid in procs && pid in procs' ==> procs[pid].token == procs'[pid].token
    ensures RevokeEverything(p, procs, order) == RevokeEverything(p, procs', order)
    decreases |order|
  {
    if order != [] {
      var t := procs[order[0]].token;
      SameTokensRevoke(RevokeSaveAll(CancelRevokeAll(RevokeNow(p, t), t), t), procs, procs', order[1..]);
    }
  }

  function AfterAppMgr(s: State, order: seq<int>): State
    requires forall i :: 0 <= i < |order| ==> order[i] in s.procs
  {
    s.(perm := RevokeEverything(s.perm, s.procs, order), procs := map[], saExit := true, lock := Free)
  }

  ghost predicate LeftNothing(p: PermState, u: TokenId) {
    HoldsNothing(p, u) && u !in p.counts && !RevokePending(p, u)
  }

  ghost predicate SameGrants(p: PermState, p': PermState, u: TokenId) {
    (forall x: Permission :: (u, x) in p'.held <==> (u, x) in p.held) && CountOf(p', u) == CountOf(p, u)
  }

  lemma RevokedAll(p: PermState, t: TokenId, u: TokenId)
    requires Recorded(p) && QueueInv(p)
    ensures var p' := RevokeSaveAll(CancelRevokeAll(RevokeNow(p, t), t), t);
            && Recorded(p') && QueueInv(p') && (t == u || LeftNothing(p, u) ==> LeftNothing(p', u))
            && (t != u ==> SameGrants(p, p', u))
  {
    var p1 := RevokeNow(p, t);
    RevokeNowTakesAll(p, t);
    RevokeNowQuiet(p, t);
    CancelShapes(p1, t);
    RevokeSaveAllQuiet(CancelRevokeAll(p1, t), t);
  }

  lemma {:induction false} RevokedEverything(p: PermState, procs: Procs, order: seq<int>, u: TokenId)
    requires Recorded(p) && QueueInv(p) && forall i :: 0 <= i < |order| ==> order[i] in procs
    ensures var p' := RevokeEverything(p, procs, order);
            && ((exists i :: 0 <= i < |order| && procs[order[i]].token == u) || LeftNothing(p, u) ==>
                  LeftNothing(p', u))
            && ((forall i :: 0 <= i < |order| ==> procs[order[i]].token != u) ==> SameGrants(p, p', u))
    decreases |order|
  {
    if order != [] {
      var t, rest := procs[order[0]].token, order[1..];
      RevokedAll(p, t, u);
      RevokedEverything(RevokeSaveAll(CancelRevokeAll(RevokeNow(p, t), t), t), procs, rest, u);
      assert forall i :: 1 <= i < |order| ==> order[i] == rest[i - 1];
      assert forall i :: 0 <= i < |rest| ==> rest[i] == order[i + 1];
    }
  }

  /** After the application manager died the service is exiting, and no process's token is left with anything. */
  lemma AppMgrLeavesNothing(s: State, order: seq<int>, u: TokenId)
    requires Recorded(s.perm) && TasksInv(s) && ListsProcs(order, s.procs)
    ensures var s' := AfterAppMgr(s, order);
            && s'.saExit && s'.procs == map[]
            && if exists pid :: pid in s.procs && s.procs[pid].token == u then LeftNothing(s'.perm, u)
               else SameGrants(s.perm, s'.perm, u)
  {
    RevokedEverything(s.perm, s.procs, order, u);
    if exists pid :: pid in s.procs && s.procs[pid].token == u {
      var pid :| pid in s.procs && s.procs[pid].token == u;
      var i :| 0 <= i < |order| && order[i] == pid;
    } else {
      forall i | 0 <= i < |order| ensures s.procs[order[i]].token != u {
        assert order[i] in s.procs;
      }
    }
  }

  predicate WalksOver(s: State, phase: DeathPhase) {
    && s.lock.AppMgrDying? && s.lock.phase == phase
    && forall i :: 0 <= i < |s.lock.order| ==> s.lock.order[i] in s.procs
  }

  lemma AppMgrRevokes(s: State)
    requires WalksOver(s, RevokeGrants) && s.lock.order != []
    ensures var (pid, t) := (s.lock.order[0], s.procs[s.lock.order[0]].token);
            Step(s, AppMgrStep, s.(perm := RevokeNow(s.perm, t), procs := s.procs[pid := s.procs[pid].(comps := [])],
                                   lock := AppMgrDying(s.lock.order, CancelTask)))
  {
  }

  lemma AppMgrCancels(s: State)
    requires WalksOver(s, CancelTask) && s.lock.order != []
    ensures var t := s.procs[s.lock.order[0]].token;
            Step(s, AppMgrStep, s.(perm := CancelRevokeAll(s.perm, t), lock := AppMgrDying(s.lock.order, DropSave)))
  {
  }

  lemma AppMgrDrops(s: State)
    requires WalksOver(s, DropSave) && s.lock.order != []
    ensures var t := s.procs[s.lock.order[0]].token;
            Step(s, AppMgrStep, s.(perm := RevokeSaveAll(s.perm, t),
              lock := AppMgrDying(s.lock.order[1..], RevokeGrants)))
  {
  }

  function PastProcess(s: State): State
    requires WalksOver(s, RevokeGrants) && s.lock.order != []
  {
    var (pid, t) := (s.lock.order[0], s.procs[s.lock.order[0]].token);
    s.(perm := RevokeSaveAll(CancelRevokeAll(RevokeNow(s.perm, t), t), t),
       procs := s.procs[pid := s.procs[pid].(comps := [])], lock := AppMgrDying(s.lock.order[1..], RevokeGrants))
  }

  lemma CancelAndDrop(s0: State, labels: seq<Label>, s: State)
    requires Runs(s0, labels, s) && WalksOver(s, CancelTask) && s.lock.order != []
    ensures var t := s.procs[s.lock.order[0]].token;
            Runs(s0, labels + [AppMgrStep] + [AppMgrStep],
                 s.(perm := RevokeSaveAll(CancelRevokeAll(s.perm, t), t),
                   lock := AppMgrDying(s.lock.order[1..], RevokeGrants)))
  {
    var t := s.procs[s.lock.order[0]].token;
    var s1 := s.(perm := CancelRevokeAll(s.perm, t), lock := AppMgrDying(s.lock.order, DropSave));
    var s2 := s.(perm := RevokeSaveAll(s1.perm, t), lock := AppMgrDying(s.lock.order[1..], RevokeGrants));
    AppMgrCancels(s);
    RunsOneMore(s0, labels, s, AppMgrStep, s1);
    AppMgrDrops(s1);
    RunsOneMore(s0, labels + [AppMgrStep], s1, AppMgrStep, s2);
  }

  function WalkRevoked(s: State): State
    requires WalksOver(s, RevokeGrants) && s.lock.order != []
  {
    var (pid, t) := (s.lock.order[0], s.procs[s.lock.order[0]].token);
    s.(perm := RevokeNow(s.perm, t), procs := s.procs[pid := s.procs[pid].(comps := [])],
       lock := AppMgrDying(s.lock.order, CancelTask))
  }

  lemma RevokeRuns(s0: State, labels: seq<Label>, s: State)
    requires Runs(s0, labels, s) && WalksOver(s, RevokeGrants) && s.lock.order != []
    ensures Runs(s0, labels + [AppMgrStep], WalkRevoked(s))
  {
    AppMgrRevokes(s);
    RunsOneMore(s0, labels, s, AppMgrStep, WalkRevoked(s));
  }

  /** The next process in the walk is revoked, cancelled and dropped in three sections. */
  lemma OneProcess(s0: State, labels: seq<Label>, s: State) returns (more: seq<Label>)
    requires Runs(s0, labels, s) && WalksOver(s, RevokeGrants) && s.lock.order != []
    ensures Runs(s0, more, PastProcess(s))
    ensures labels <= more && forall i :: |labels| <= i < |more| ==> more[i].AppMgrStep?
  {
    RevokeRuns(s0, labels, s);
    CancelAndDrop(s0, labels + [AppMgrStep], WalkRevoked(s));
    more := labels + [AppMgrStep] + [AppMgrStep] + [AppMgrStep];
  }

  lemma AppMgrEnds(s: State)
    requires WalksOver(s, RevokeGrants) && s.lock.order == []
    ensures Step(s, AppMgrStep, AfterAppMgr(s, []))
  {
  }

  lemma {:induction false} AppMgrSteps(s0: State, labels: seq<Label>, s: State) returns (more: seq<Label>)
    requires Runs(s0, labels, s) && WalksOver(s, RevokeGrants)
    ensures Runs(s0, more, AfterAppMgr(s, s.lock.order))
    ensures labels <= more && forall i :: |labels| <= i < |more| ==> more[i].AppMgrStep?
    decreases |s.lock.order|
  {
    if s.lock.order == [] {
      more := labels + [AppMgrStep];
      AppMgrEnds(s);
      RunsOneMore(s0, labels, s, AppMgrStep, AfterAppMgr(s, []));
    } else {
      more := OneProcess(s0, labels, s);
      var s' := PastProcess(s);
      SameTokensRevoke(s'.perm, s.procs, s'.procs, s'.lock.order);
      more := AppMgrSteps(s0, more, s');
    }
  }

  /** The application manager's death is a walk over the register, when nothing comes in between. */
  lemma AppMgrIsItsSteps(s: State, order: seq<int>) returns (labels: seq<Label>)
    requires s.lock == Free && ListsProcs(order, s.procs)
    ensures Runs(s, labels, AfterAppMgr(s, order))
    ensures |labels| >= 1 && labels[0] == AppMgrDied(order) && forall i :: 1 <= i < |labels| ==> labels[i].AppMgrStep?
  {
    var s1 := DoAppMgrDied(s, order);
    RunsNone(s);
    RunsOneMore(s, [], s, AppMgrDied(order), s1);
    labels := AppMgrSteps(s, [] + [AppMgrDied(order)], s1);
  }

  /** A dying process's token gives everything back, and the exit is posted. */
  function Released(p: PermState, t: TokenId): PermState {
    StartExit(RevokeSaveAll(CancelRevokeAll(RevokeNow(p, t), t), t))
  }

  function AfterDeath(s: State, pid: int, cached: bool): State {
    var s1 := if cached then s else s.(mal := Mal.Remove(s.mal, pid));
    if pid !in s.procs then s1
    else
      var t := s.procs[pid].token;
      s1.(dialog := RemoveWaits(s.dialog, pid), procs := s.procs - {pid},
          perm := Released(s.perm, t))
  }

  /** The four sections of a death add up to one clean removal when nothing comes between them. */
  lemma DeathIsItsSteps(s: State, pid: int, cached: bool) returns (labels: seq<Label>)
    requires s.lock == Free && s.mapLock == MapFree
    ensures Runs(s, labels, AfterDeath(s, pid, cached))
    ensures labels == [Died(pid, cached)] + if pid in s.procs then [DiedStep, DiedStep, DiedStep, DiedStep] else []
  {
    var s1 := DoDied(s, pid, cached);
    RunsNone(s);
    RunsOneMore(s, [], s, Died(pid, cached), s1);
    labels := [] + [Died(pid, cached)];
    if pid in s.procs {
      FourSections(s, labels, s1);
      labels := labels + [DiedStep] + [DiedStep] + [DiedStep] + [DiedStep];
    }
  }

  predicate Dies(s: State, phase: DeathPhase) {
    s.lock.Dying? && s.lock.phase == phase && s.lock.pid in s.procs && s.mapLock == MapFree
  }

  lemma DeathDropsWaits(s: State)
    requires Dies(s, DropWaits)
    ensures var pid := s.lock.pid;
            Step(s, DiedStep, s.(dialog := RemoveWaits(s.dialog, pid),
              procs := s.procs[pid := s.procs[pid].(comps := [])],
                                 lock := Dying(pid, RevokeGrants)))
  {
  }

  lemma DeathRevokes(s: State)
    requires Dies(s, RevokeGrants) || Dies(s, CancelTask)
    ensures var (pid, t) := (s.lock.pid, s.procs[s.lock.pid].token);
            if s.lock.phase == RevokeGrants then
              Step(s, DiedStep, s.(perm := RevokeNow(s.perm, t), lock := Dying(pid, CancelTask)))
            else Step(s, DiedStep, s.(perm := CancelRevokeAll(s.perm, t), lock := Dying(pid, DropSave)))
  {
  }

  lemma DeathErases(s: State)
    requires Dies(s, DropSave)
    ensures var (pid, t) := (s.lock.pid, s.procs[s.lock.pid].token);
            Step(s, DiedStep, s.(perm := StartExit(RevokeSaveAll(s.perm, t)), procs := s.procs - {pid}, lock := Free))
  {
  }

  lemma FirstSections(s0: State, labels: seq<Label>, s: State)
    requires Runs(s0, labels, s) && Dies(s, DropWaits)
    ensures var (pid, t) := (s.lock.pid, s.procs[s.lock.pid].token);
            Runs(s0, labels + [DiedStep] + [DiedStep],
                 s.(dialog := RemoveWaits(s.dialog, pid), procs := s.procs[pid := s.procs[pid].(comps := [])],
                    perm := RevokeNow(s.perm, t), lock := Dying(pid, CancelTask)))
  {
    var (pid, t) := (s.lock.pid, s.procs[s.lock.pid].token);
    var s1 := s.(dialog := RemoveWaits(s.dialog, pid), procs := s.procs[pid := s.procs[pid].(comps := [])],
                 lock := Dying(pid, RevokeGrants));
    DeathDropsWaits(s);
    RunsOneMore(s0, labels, s, DiedStep, s1);
    DeathRevokes(s1);
    RunsOneMore(s0, labels + [DiedStep], s1, DiedStep,
                s1.(perm := RevokeNow(s.perm, t), lock := Dying(pid, CancelTask)));
  }

  lemma LastSections(s0: State, labels: seq<Label>, s: State)
    requires Runs(s0, labels, s) && Dies(s, CancelTask)
    ensures var (pid, t) := (s.lock.pid, s.procs[s.lock.pid].token);
            Runs(s0, labels + [DiedStep] + [DiedStep],
                 s.(procs := s.procs - {pid}, lock := Free,
                    perm := StartExit(RevokeSaveAll(CancelRevokeAll(s.perm, t), t))))
  {
    var (pid, t) := (s.lock.pid, s.procs[s.lock.pid].token);
    var s1 := s.(perm := CancelRevokeAll(s.perm, t), lock := Dying(pid, DropSave));
    DeathRevokes(s);
    RunsOneMore(s0, labels, s, DiedStep, s1);
    DeathErases(s1);
    RunsOneMore(s0, labels + [DiedStep], s1, DiedStep,
                s1.(perm := StartExit(RevokeSaveAll(s1.perm, t)), procs := s.procs - {pid}, lock := Free));
  }

  lemma FourSections(s0: State, labels: seq<Label>, s: State)
    requires Runs(s0, labels, s) && Dies(s, DropWaits)
    ensures var (pid, t) := (s.lock.pid, s.procs[s.lock.pid].token);
            Runs(s0, labels + [DiedStep] + [DiedStep] + [DiedStep] + [DiedStep],
                 s.(dialog := RemoveWaits(s.dialog, pid), procs := s.procs - {pid}, lock := Free,
                    perm := StartExit(RevokeSaveAll(CancelRevokeAll(RevokeNow(s.perm, t), t), t))))
  {
    var (pid, t) := (s.lock.pid, s.procs[s.lock.pid].token);
    var procs := s.procs[pid := s.procs[pid].(comps := [])];
    FirstSections(s0, labels, s);
    LastSections(s0, labels + [DiedStep] + [DiedStep],
                 s.(dialog := RemoveWaits(s.dialog, pid), procs := procs, perm := RevokeNow(s.perm, t),
                    lock := Dying(pid, CancelTask)));
    assert procs - {pid} == s.procs - {pid};
  }

  /**
   After a death that nothing interrupts, the token holds nothing and has nothing
   recorded, counted or pending, the process and its waits are gone, and the exit
   task is pending. A cached process stays on the malicious list.
   */
  lemma DeathLeavesNothing(s: State, pid: int, cached: bool)
    requires Recorded(s.perm) && TasksInv(s) && pid in s.procs
    ensures var (t, s') := (s.procs[pid].token, AfterDeath(s, pid, cached));
            && HoldsNothing(s'.perm, t) && GrantedSet(s'.perm, t) == {}
            && !VerifySave(s'.perm, t) && DequeOf(s'.perm, t) == []
            && !RevokePending(s'.perm, t) && ExitPending(s'.perm)
            && pid !in s'.procs && (forall k :: k in s'.dialog.waits ==> s'.dialog.waits[k].pid != pid)
            && (pid in s'.mal.listed <==> cached && pid in s.mal.listed)
            && s'.procs == s.procs - {pid} && s'.ents == s.ents
            && (forall x: (TokenId, Permission) :: x.0 != t ==> (x in s'.perm.held <==> x in s.perm.held))
            && (forall u: TokenId :: u != t ==> CountOf(s'.perm, u) == CountOf(s.perm, u))
  {
    var t := s.procs[pid].token;
    var p1 := RevokeNow(s.perm, t);
    var p2 := CancelRevokeAll(p1, t);
    var p3 := RevokeSaveAll(p2, t);
    RevokeNowTakesAll(s.perm, t);
    RevokeNowQuiet(s.perm, t);
    CancelShapes(p1, t);
    RevokeSaveAllQuiet(p2, t);
    PostShapes(p3, EXIT_TASK);
    assert StartExit(p3) == p3.(tasks := p3.tasks + [EXIT_TASK]);
  }

  // A pre-registration

  function AfterPreRegister(s: State, c: Caller): State {
    s.(perm := StopExit(s.perm),
       procs := if s.saExit || c.pid in s.procs then s.procs else s.procs[c.pid := Proc([], true, c.token)])
  }

  lemma PreRegisterCommits(s: State, c: Caller)
    requires s.lock == Free
    ensures var s1 := s.(perm := StopExit(s.perm), preRegs := s.preRegs + [c]);
            Step(s, PreRegisterStop(c), s1) && Step(s1, PreRegisterCommit(|s.preRegs|), AfterPreRegister(s, c))
  {
    var more := s.preRegs + [c];
    assert more[..|s.preRegs|] + more[|s.preRegs| + 1..] == s.preRegs;
  }

  /** A pre-registration takes back the exit and registers a new process, in the foreground and without components. */
  lemma PreRegisterOutcome(s: State, c: Caller)
    ensures var s' := AfterPreRegister(s, c);
            && (forall task :: task in s'.perm.tasks <==> task in s.perm.tasks && task.name != "DelayExitTask")
            && s' == s.(procs := s'.procs, perm := s.perm.(tasks := s'.perm.tasks))
            && if s.saExit || c.pid in s.procs then s'.procs == s.procs
               else
                 && s'.procs.Keys == s.procs.Keys + {c.pid} && (forall p :: p in s.procs ==> s'.procs[p] == s.procs[p])
                 && s'.procs[c.pid].comps == [] && s'.procs[c.pid].foreground && s'.procs[c.pid].token == c.token
  {
    forall task {
      WithoutMember(s.perm.tasks, {DELAY_EXIT_NAME}, task);
    }
  }

  /** A pre-registration is stopping the exit and putting the process into the register, when nothing comes between. */
  lemma PreRegisterIsItsSteps(s: State, c: Caller)
    requires s.lock == Free
    ensures Runs(s, [PreRegisterStop(c), PreRegisterCommit(|s.preRegs|)], AfterPreRegister(s, c))
  {
    var s1 := s.(perm := StopExit(s.perm), preRegs := s.preRegs + [c]);
    PreRegisterCommits(s, c);
    RunsNone(s);
    RunsOneMore(s, [], s, PreRegisterStop(c), s1);
    RunsOneMore(s, [] + [PreRegisterStop(c)], s1, PreRegisterCommit(|s.preRegs|), AfterPreRegister(s, c));
    assert [] + [PreRegisterStop(c)] + [PreRegisterCommit(|s.preRegs|)]
        == [PreRegisterStop(c), PreRegisterCommit(|s.preRegs|)];
  }
}
