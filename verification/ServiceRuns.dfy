/**
 Runs from a fresh service that show why the conditions of the theorems are needed:
 each is a run of the machine, step by step, to a state that does what one would not
 expect.
 */
module ServiceRuns {
  import opened Types
  import opened TaskNames
  import opened EventHandler
  import opened PermManager
  import opened Geometry
  import opened Entity
  import opened FirstUseDialog
  import opened Registry
  import opened Service
  import opened ServiceTasks
  import opened ServiceSafety
  import opened ServiceBackground
  import Mal = MaliciousApps

  const SC := SC_ID_START + 1
  const AREA := Rect(0.0, 0.0, 40.0, 40.0, BorderRadius(0.0, 0.0, 0.0, 0.0))
  const NO_TROUBLE := DialogAnswer(false, false, true, 0)
  const GRANTED := Answer(SC_OK, false, 0)

  function Button(ty: SecCompType): Component {
    Component(ty, true, AREA, AREA, 0, 0, StateInvalid, false, false)
  }

  function Report(ty: SecCompType): ReportInput {
    ReportInput(Some(Button(ty)), SC_OK, false)
  }

  function Tap(ty: SecCompType, covered: bool): ClickInput {
    ClickInput(REPORT_REMOTE_OBJECT_SIZE, false, true, false, Some(Button(ty)), true, 0, RectValid, SC_OK,
               covered, true, AccessibilityEvent, SC_OK, 0)
  }

  // A component is registered

  function Requested(s: State, c: Caller, ty: SecCompType): State {
    s.(nextStart := SC, starting := [Starting(c, SC, Button(ty), false)])
  }

  function Registered(s: State, c: Caller, ty: SecCompType): State {
    s.(nextStart := SC, procs := map[c.pid := Proc([SC], true, c.token)],
       ents := map[SC := EntityView(SC, c.pid, c.token, Button(ty), false, false, false)],
       perm := s.perm.(tasks := []))
  }

  lemma FreshRequest(s: State, c: Caller, ty: SecCompType)
    requires Init(s)
    ensures Step(s, Register(c, Report(ty)), Requested(s, c, ty))
  {
    assert LiveIds(s.procs) == {};
    assert FreshId(s) == SC;
    assert Mal.Reset(s.mal, c.pid) == s.mal;
  }

  lemma FreshRegistration(s: State, c: Caller, ty: SecCompType)
    requires Init(s)
    ensures Step(Requested(s, c, ty), RegisterAdd(0), Registered(s, c, ty))
  {
    var s1 := Requested(s, c, ty);
    assert s1.starting[..0] + s1.starting[1..] == [];
    assert Without([EXIT_TASK], {DELAY_EXIT_NAME}) == [];
  }

  lemma FewIds(s: State)
    requires forall pid, id :: HasComponent(s.procs, pid, id) ==> id == SC
    ensures IdsLeft(s)
  {
    assert LiveIds(s.procs) <= {SC} by {
      forall id | id in LiveIds(s.procs) ensures id == SC {
        var pid :| pid in s.procs && id in s.procs[pid].comps;
        assert HasComponent(s.procs, pid, id);
      }
    }
    Subset(LiveIds(s.procs), {SC});
  }

  lemma Subset(a: set<int>, b: set<int>)
    requires a <= b
    ensures |a| <= |b|
  {
    assert b == a + (b - a);
  }

  lemma OneMoreStep(states: seq<State>, labels: seq<Label>, l: Label, s': State)
    requires RoomyRun(states, labels) && Step(states[|labels|], l, s') && IdsLeft(s')
    ensures RoomyRun(states + [s'], labels + [l])
  {
    var more, done := states + [s'], labels + [l];
    forall i | 0 <= i < |done| ensures StepAt(more, done, i) {
      if i < |labels| {
        assert StepAt(states, labels, i);
      }
    }
  }

  // It is clicked, and a dialog is shown for it

  function Called(s: State, call: Call): State {
    s.(passed := [call])
  }

  function Accepted(s: State, ty: SecCompType): State {
    s.(lock := Notifying(SC), log := s.log + [Clicked(SC, ty)])
  }

  function Waiting(s: State, c: Caller, ty: SecCompType): State {
    s.(dialog := s.dialog.(waits := map[SC := Owner(c.pid, c.token)]), shown := map[SC := ty],
       log := s.log + [Clicked(SC, ty), DialogInserted(SC, c.token, ty)])
  }

  /** A click that is accepted and asks for a dialog: a location click on a free component, or a first save click. */
  predicate AsksForDialog(s: State, c: Caller, ty: SecCompType, covered: bool) {
    (ty == Location && !covered) || (ty == Save && !SaveBitSet(s.dialog, c.token))
  }

  lemma ClickPasses(s: State, c: Caller, ty: SecCompType, covered: bool)
    requires Init(s)
    ensures var (s2, call) := (Registered(s, c, ty), ClickCall(SC, c, Tap(ty, covered)));
            Step(s2, CallCheck(call), Called(s2, call))
  {
  }

  lemma ClickIsAccepted(s: State, c: Caller, ty: SecCompType, covered: bool)
    requires Init(s) && AsksForDialog(s, c, ty, covered)
    ensures var (s2, call) := (Registered(s, c, ty), ClickCall(SC, c, Tap(ty, covered)));
            Step(Called(s2, call), Click(0), Accepted(s2, ty))
  {
    var (s2, call) := (Registered(s, c, ty), ClickCall(SC, c, Tap(ty, covered)));
    var s3 := Called(s2, call);
    assert DropCall(s3, 0) == s2;
    assert Mal.Reset(s2.mal, c.pid) == s2.mal;
    assert s2.ents[SC := s2.ents[SC]] == s2.ents;
  }

  lemma DialogIsShown(s: State, c: Caller, ty: SecCompType, covered: bool)
    requires Init(s) && AsksForDialog(s, c, ty, covered)
    ensures var s2 := Registered(s, c, ty); Step(Accepted(s2, ty), ClickNotify(NO_TROUBLE), Waiting(s2, c, ty))
  {
    var s4 := Accepted(Registered(s, c, ty), ty);
    assert s4.log + [DialogInserted(SC, c.token, ty)] == s.log + [Clicked(SC, ty), DialogInserted(SC, c.token, ty)];
  }

  lemma Extend(states: seq<State>, labels: seq<Label>, l: Label, s': State) returns (more: seq<State>, done: seq<Label>)
    requires RoomyRun(states, labels) && Step(states[|labels|], l, s')
    requires forall pid, id :: HasComponent(s'.procs, pid, id) ==> id == SC
    ensures RoomyRun(more, done) && more == states + [s'] && done == labels + [l]
  {
    more, done := states + [s'], labels + [l];
    FewIds(s');
    OneMoreStep(states, labels, l, s');
  }

  function OpeningLabels(c: Caller, ty: SecCompType, covered: bool): seq<Label> {
    [Register(c, Report(ty)), RegisterAdd(0), CallCheck(ClickCall(SC, c, Tap(ty, covered))), Click(0),
      ClickNotify(NO_TROUBLE)]
  }

  /** From a fresh service, a component is registered. */
  lemma ComponentOpens(s: State, c: Caller, ty: SecCompType) returns (states: seq<State>, labels: seq<Label>)
    requires Init(s)
    ensures RoomyRun(states, labels) && states[0] == s && states[|labels|] == Registered(s, c, ty)
    ensures labels == [Register(c, Report(ty)), RegisterAdd(0)]
  {
    FewIds(s);
    states, labels := [s], [];
    FreshRequest(s, c, ty);
    states, labels := Extend(states, labels, Register(c, Report(ty)), Requested(s, c, ty));
    FreshRegistration(s, c, ty);
    states, labels := Extend(states, labels, RegisterAdd(0), Registered(s, c, ty));
  }

  /** From a fresh service, a component is registered, clicked and waits for its dialog. */
  lemma DialogOpens(s: State, c: Caller, ty: SecCompType, covered: bool)
    returns (states: seq<State>, labels: seq<Label>)
    requires Init(s) && AsksForDialog(s, c, ty, covered)
    ensures RoomyRun(states, labels) && states[0] == s && states[|labels|] == Waiting(Registered(s, c, ty), c, ty)
    ensures labels == OpeningLabels(c, ty, covered)
  {
    var s2, call := Registered(s, c, ty), ClickCall(SC, c, Tap(ty, covered));
    states, labels := ComponentOpens(s, c, ty);
    ClickPasses(s, c, ty, covered);
    states, labels := Extend(states, labels, CallCheck(call), Called(s2, call));
    ClickIsAccepted(s, c, ty, covered);
    states, labels := Extend(states, labels, Click(0), Accepted(s2, ty));
    DialogIsShown(s, c, ty, covered);
    states, labels := Extend(states, labels, ClickNotify(NO_TROUBLE), Waiting(s2, c, ty));
  }

  /** A location component that waits with nothing else pending is reached from every fresh service. */
  lemma WaitingIsReachable(s: State, c: Caller) returns (states: seq<State>, labels: seq<Label>)
    requires Init(s) && c.token != INVALID_TOKEN
    ensures RoomyRun(states, labels) && states[0] == s && WaitingLocation(states[|labels|], SC)
  {
    states, labels := DialogOpens(s, c, Location, false);
  }

  // The dialog of a location component is closed, and the grant succeeds

  predicate CanClose(s: State, t: TokenId) {
    && s.mapLock == MapFree && SC in s.dialog.waits && SC in s.ents
    && s.ents[SC].comp.ty == Location && s.ents[SC].token == t && t != INVALID_TOKEN
  }

  function GrantOpen(s: State): State {
    s.(mapLock := DialogGranting(SC, Begin, Unknown), log := s.log + [DialogAttempt(SC)])
  }

  function HalfGranted(s: State, t: TokenId): State
    requires SC in s.ents
  {
    s.(mapLock := DialogGranting(SC, NeedLocation, Location), perm := GrantApp(s.perm, t, ApproximatelyLocation, SC_OK),
       ents := s.ents[SC := s.ents[SC].(isGrant := true)], log := s.log + [DialogAttempt(SC)])
  }

  function LocationGranted(s: State, t: TokenId): State
    requires SC in s.ents
  {
    s.(perm := GrantApp(GrantApp(s.perm, t, ApproximatelyLocation, SC_OK), t, PreciseLocation, SC_OK),
       ents := s.ents[SC := s.ents[SC].(isGrant := true)],
       dialog := s.dialog.(waits := s.dialog.waits - {SC}),
       closing := s.closing + [Closing(SC, ShownType(s, SC), Location)],
       log := s.log + [DialogAttempt(SC), DialogOk(SC, t, Location)])
  }

  lemma CloseSteps(s: State, t: TokenId)
    requires CanClose(s, t)
    ensures Step(s, DialogClosed(SC, ON_DIALOG_CLOSED), GrantOpen(s))
    ensures Step(GrantOpen(s), DialogGrant(GRANTED), HalfGranted(s, t))
    ensures Step(HalfGranted(s, t), DialogGrant(GRANTED), LocationGranted(s, t))
  {
    var s2 := HalfGranted(s, t);
    assert s2.ents[SC := s2.ents[SC].(isGrant := true)] == s2.ents;
    assert s2.log + [DialogOk(SC, t, Location)] == LocationGranted(s, t).log;
  }

  const CLOSING_LABELS := [DialogClosed(SC, ON_DIALOG_CLOSED), DialogGrant(GRANTED), DialogGrant(GRANTED)]

  lemma CloseRun(states: seq<State>, labels: seq<Label>, t: TokenId) returns (more: seq<State>, done: seq<Label>)
    requires RoomyRun(states, labels) && CanClose(states[|labels|], t)
    requires forall pid, id :: HasComponent(states[|labels|].procs, pid, id) ==> id == SC
    ensures RoomyRun(more, done) && states <= more && more[|done|] == LocationGranted(states[|labels|], t)
    ensures done == labels + CLOSING_LABELS
  {
    var s := states[|labels|];
    CloseSteps(s, t);
    more, done := Extend(states, labels, DialogClosed(SC, ON_DIALOG_CLOSED), GrantOpen(s));
    more, done := Extend(more, done, DialogGrant(GRANTED), HalfGranted(s, t));
    more, done := Extend(more, done, DialogGrant(GRANTED), LocationGranted(s, t));
  }

  // The application updates its component

  function Updated(s: State, ty: SecCompType): State
    requires SC in s.ents
  {
    s.(ents := s.ents[SC := s.ents[SC].(comp := Button(ty))])
  }

  predicate CanUpdate(s: State, c: Caller) {
    s.lock == Free && s.passed == [] && SC in s.ents && HasComponent(s.procs, c.pid, SC) &&
      s.mal == Mal.MalState(map[], {})
  }

  lemma UpdateSteps(s: State, c: Caller, ty: SecCompType)
    requires CanUpdate(s, c)
    ensures var call := UpdateCall(SC, c, Report(ty));
            Step(s, CallCheck(call), Called(s, call)) && Step(Called(s, call), Update(0), Updated(s, ty))
  {
    var s1 := Called(s, UpdateCall(SC, c, Report(ty)));
    assert DropCall(s1, 0) == s;
    assert Mal.Reset(s.mal, c.pid) == s.mal;
  }

  function UpdateLabels(c: Caller, ty: SecCompType): seq<Label> {
    [CallCheck(UpdateCall(SC, c, Report(ty))), Update(0)]
  }

  lemma UpdateRun(states: seq<State>, labels: seq<Label>, c: Caller, ty: SecCompType)
    returns (more: seq<State>, done: seq<Label>)
    requires RoomyRun(states, labels) && CanUpdate(states[|labels|], c)
    requires forall pid, id :: HasComponent(states[|labels|].procs, pid, id) ==> id == SC
    ensures RoomyRun(more, done) && states <= more && more[|done|] == Updated(states[|labels|], ty)
    ensures done == labels + UpdateLabels(c, ty)
  {
    var s, call := states[|labels|], UpdateCall(SC, c, Report(ty));
    UpdateSteps(s, c, ty);
    more, done := Extend(states, labels, CallCheck(call), Called(s, call));
    more, done := Extend(more, done, Update(0), Updated(s, ty));
  }

  /**
   A location dialog is closed and granted, the application reports its component as a
   save button, and the save bit is set: later save clicks of the token need no dialog,
   though none was ever shown for saving.
   */
  lemma LocationDialogSetsSaveBit(s: State, c: Caller) returns (states: seq<State>, labels: seq<Label>)
    requires Init(s) && c.token != INVALID_TOKEN && !SaveBitSet(s.dialog, c.token)
    ensures RoomyRun(states, labels) && states[0] == s
    ensures labels == OpeningLabels(c, Location, false) + CLOSING_LABELS + UpdateLabels(c, Save) + [SetFirstUseBit(0)]
    ensures var last := states[|labels|];
            && SaveBitSet(last.dialog, c.token) && BitSet(SC, c.token, Location, Location) in last.log
            && forall o :: o in last.log && o.DialogInserted? ==> o.ty == Location
  {
    states, labels := DialogOpens(s, c, Location, false);
    states, labels := CloseRun(states, labels, c.token);
    states, labels := UpdateRun(states, labels, c, Save);
    BitStep(s, c);
    BitLog(s, c);
    states, labels := Extend(states, labels, SetFirstUseBit(0), AfterBit(BeforeBit(s, c), c.token));
  }

  function BeforeBit(s: State, c: Caller): State {
    Updated(LocationGranted(Waiting(Registered(s, c, Location), c, Location), c.token), Save)
  }

  function AfterBit(s: State, t: TokenId): State {
    s.(dialog := SetFirstUse(s.dialog, t, Save), closing := [],
       perm := s.perm.(tasks := s.perm.tasks + [Task("", 0, SaveRecord)]),
       log := s.log + [BitSet(SC, t, Location, Location)])
  }

  lemma BitStep(s0: State, c: Caller)
    requires Init(s0)
    ensures var s := BeforeBit(s0, c);
            Step(s, SetFirstUseBit(0), AfterBit(s, c.token)) && SaveBitSet(AfterBit(s, c.token).dialog, c.token)
  {
    var s := BeforeBit(s0, c);
    SetFirstUseKeepsBits(s.dialog, c.token, Save);
    assert s.closing == [Closing(SC, Location, Location)];
    assert s.closing[..0] + s.closing[1..] == [];
  }

  lemma BitLog(s0: State, c: Caller)
    requires Init(s0)
    ensures var log := AfterBit(BeforeBit(s0, c), c.token).log;
            && BitSet(SC, c.token, Location, Location) in log
            && forall o :: o in log && o.DialogInserted? ==> o.ty == Location
  {
    var log := AfterBit(BeforeBit(s0, c), c.token).log;
    assert log == [Clicked(SC, Location), DialogInserted(SC, c.token, Location), DialogAttempt(SC),
                   DialogOk(SC, c.token, Location), BitSet(SC, c.token, Location, Location)];
    assert log[4] == BitSet(SC, c.token, Location, Location);
  }

  /**
   A save button is clicked although another window covers it, which only a save button
   may be; while its dialog is open the application reports it as a location button, and
   closing the dialog gives both location permissions.
   */
  lemma CoveredSaveClickGivesLocation(s: State, c: Caller) returns (states: seq<State>, labels: seq<Label>)
    requires Init(s) && c.token != INVALID_TOKEN && !SaveBitSet(s.dialog, c.token)
    ensures RoomyRun(states, labels) && states[0] == s
    ensures labels == OpeningLabels(c, Save, true) + UpdateLabels(c, Location) + CLOSING_LABELS
    ensures {(c.token, ApproximatelyLocation), (c.token, PreciseLocation)} <= states[|labels|].perm.held
  {
    states, labels := DialogOpens(s, c, Save, true);
    states, labels := UpdateRun(states, labels, c, Location);
    states, labels := CloseRun(states, labels, c.token);
  }

  // A process is listed while its update waits for the component lock

  const BAD_REPORT := ReportInput(Some(Button(Save)), SC_SERVICE_ERROR_VALUE_INVALID, false)

  function Failed(s: State, pid: int, n: nat): State {
    s.(mal := Mal.MalState(map[pid := n], if n > Mal.MAX_CONTINUOUS_ENHANCE_FAIL_COUNT then {pid} else {}))
  }

  lemma FailStep(s: State, c: Caller, n: nat)
    requires n < 4 && s.procs == map[c.pid := Proc([SC], true, c.token)] && s.nextStart == SC
    requires s.lock == Free && s.dialog.waits == map[] && s.closing == [] && s.starting == []
    requires s.mal == (if n == 0 then Mal.MalState(map[], {}) else Failed(s, c.pid, n).mal)
    ensures Step(s, Register(c, BAD_REPORT), Failed(s, c.pid, n + 1))
  {
    assert IdUnused(s, FreshId(s));
    assert !Mal.Blocked(s.mal, c.pid, c.uid);
    assert s.mal.failCount[c.pid := n + 1] == map[c.pid := n + 1];
  }

  lemma ListedUpdateStep(s: State, c: Caller)
    requires s.lock == Free && s.passed == [UpdateCall(SC, c, Report(Save))] && s.mal == Failed(s, c.pid, 4).mal
    requires HasComponent(s.procs, c.pid, SC) && SC in s.ents
    ensures Step(s, Update(0), AfterListedUpdate(s, c.pid))
  {
    assert s.passed[..0] + s.passed[1..] == [];
    assert map[c.pid := 4] - {c.pid} == map[];
  }

  /** Failing registrations, one after the other, until the process is listed. */
  lemma {:induction false} FailRun(states: seq<State>, labels: seq<Label>, s: State, c: Caller, n: nat)
    returns (more: seq<State>, done: seq<Label>)
    requires RoomyRun(states, labels) && n <= 4 && states[|labels|] == (if n == 0 then s else Failed(s, c.pid, n))
    requires s.procs == map[c.pid := Proc([SC], true, c.token)] && s.nextStart == SC
    requires s.lock == Free && s.dialog.waits == map[] && s.closing == [] && s.starting == []
    requires s.mal == Mal.MalState(map[], {})
    ensures RoomyRun(more, done) && states <= more && more[|done|] == Failed(s, c.pid, 4)
    decreases 4 - n
  {
    if n == 4 {
      more, done := states, labels;
    } else {
      FailStep(states[|labels|], c, n);
      more, done := Extend(states, labels, Register(c, BAD_REPORT), Failed(s, c.pid, n + 1));
      more, done := FailRun(more, done, s, c, n + 1);
    }
  }

  /**
   An update passes the check and waits; meanwhile four registrations of the same process
   fail and put it on the list. The update then changes the component all the same.
   */
  lemma ListedProcessUpdates(s: State, c: Caller) returns (states: seq<State>, labels: seq<Label>, n: nat)
    requires Init(s) && c.uid != Mal.ROOT_UID
    ensures RoomyRun(states, labels) && states[0] == s && n < |labels|
    ensures labels[n] == Update(0) && c.pid in states[n].mal.listed && c.pid in states[n + 1].mal.listed
    ensures SC in states[n].ents && states[n].ents[SC].comp == Button(Location)
    ensures SC in states[n + 1].ents && states[n + 1].ents[SC].comp == Button(Save)
  {
    var call := UpdateCall(SC, c, Report(Save));
    states, labels := ComponentOpens(s, c, Location);
    var s0 := Called(Registered(s, c, Location), call);
    UpdateSteps(Registered(s, c, Location), c, Save);
    states, labels := Extend(states, labels, CallCheck(call), s0);
    states, labels := FailRun(states, labels, s0, c, 0);
    n := |labels|;
    var last := Failed(s0, c.pid, 4);
    ListedUpdateStep(last, c);
    states, labels := Extend(states, labels, Update(0), AfterListedUpdate(last, c.pid));
  }

  function AfterListedUpdate(s: State, pid: int): State
    requires SC in s.ents
  {
    Updated(s, Save).(passed := [], mal := Mal.MalState(map[], {pid}))
  }

  // A click's grant and a dialog's grant overlap

  /** The component waits for its dialog and is now a save button of a token that needs none. */
  predicate CanOverlap(s: State, c: Caller) {
    && CanUpdate(s, c) && s.mapLock == MapFree && SC in s.dialog.waits && SaveBitSet(s.dialog, c.token)
    && s.ents[SC] == EntityView(SC, c.pid, c.token, Button(Save), false, false, false) && c.token != INVALID_TOKEN
    && s.perm == PermState(map[], map[], map[], {}, [])
  }

  function SaveTap(c: Caller): Call {
    ClickCall(SC, c, Tap(Save, false))
  }

  function Granted(s: State): State
    requires SC in s.ents
  {
    s.(ents := s.ents[SC := s.ents[SC].(isGrant := true)])
  }

  function BothOpen(s: State, c: Caller): State {
    s.(lock := Granting(SC, Begin), mapLock := DialogGranting(SC, Begin, Unknown),
       log := s.log + [Clicked(SC, Save), WithoutDialog(SC, c.token, Save), DialogAttempt(SC)])
  }

  lemma BothOpenSteps(s: State, c: Caller)
    requires CanOverlap(s, c)
    ensures var ready := s.(lock := Granting(SC, Begin),
                            log := s.log + [Clicked(SC, Save), WithoutDialog(SC, c.token, Save)]);
            && Step(s, CallCheck(SaveTap(c)), Called(s, SaveTap(c)))
            && Step(Called(s, SaveTap(c)), Click(0), Accepted(s, Save))
            && Step(Accepted(s, Save), ClickNotify(NO_TROUBLE), ready)
            && Step(ready, DialogClosed(SC, ON_DIALOG_CLOSED), BothOpen(s, c))
  {
    assert DropCall(Called(s, SaveTap(c)), 0) == s;
    assert Mal.Reset(s.mal, c.pid) == s.mal;
    assert s.ents[SC := s.ents[SC]] == s.ents;
    assert s.log + [Clicked(SC, Save)] + [WithoutDialog(SC, c.token, Save)]
        == s.log + [Clicked(SC, Save), WithoutDialog(SC, c.token, Save)];
    assert s.log + [Clicked(SC, Save), WithoutDialog(SC, c.token, Save)] + [DialogAttempt(SC)] == BothOpen(s, c).log;
  }

  /** Permissions of token `t` after the click's grant has posted, and after the dialog's has as well. */
  function OnePosted(t: TokenId): PermState {
    PostSave(PermState(map[], map[], map[], {}, []), t, SaveTaskName(t, 1))
  }

  function BothPosted(t: TokenId): PermState {
    PostSave(OnePosted(t), t, SaveTaskName(t, 2))
  }

  function ClickPosted(s: State, c: Caller): State
    requires SC in s.ents
  {
    Granted(BothOpen(s, c)).(perm := OnePosted(c.token), lock := Granting(SC, NeedPush(SaveTaskName(c.token, 1))))
  }

  function DialogPosted(s: State, c: Caller): State
    requires SC in s.ents
  {
    ClickPosted(s, c).(perm := BothPosted(c.token),
                       mapLock := DialogGranting(SC, NeedPush(SaveTaskName(c.token, 2)), Save))
  }

  function DialogQueued(s: State, c: Caller): State
    requires SC in s.ents
  {
    var done := DialogPosted(s, c);
    done.(perm := PushSave(BothPosted(c.token), c.token, SaveTaskName(c.token, 2)), mapLock := MapFree,
          dialog := s.dialog.(waits := s.dialog.waits - {SC}),
          closing := s.closing + [Closing(SC, ShownType(s, SC), Save)],
          log := done.log + [DialogOk(SC, c.token, Save)])
  }

  function BothQueued(s: State, c: Caller): State
    requires SC in s.ents
  {
    DialogQueued(s, c).(perm := PushSave(PushSave(BothPosted(c.token), c.token, SaveTaskName(c.token, 2)), c.token,
                                         SaveTaskName(c.token, 1)), lock := Free)
  }

  function At(clock: nat): Answer {
    Answer(SC_OK, false, clock)
  }

  lemma PostingSteps(s: State, c: Caller)
    requires CanOverlap(s, c)
    ensures Step(BothOpen(s, c), ClickGrant(At(1)), ClickPosted(s, c))
    ensures Step(ClickPosted(s, c), DialogGrant(At(2)), DialogPosted(s, c))
  {
    var s1 := ClickPosted(s, c);
    assert s1.ents[SC := s1.ents[SC].(isGrant := true)] == s1.ents;
  }

  lemma QueueingSteps(s: State, c: Caller)
    requires CanOverlap(s, c)
    ensures Step(DialogPosted(s, c), DialogGrant(At(0)), DialogQueued(s, c))
    ensures Step(DialogQueued(s, c), ClickGrant(At(0)), BothQueued(s, c))
  {
    var s1, s2 := DialogPosted(s, c), DialogQueued(s, c);
    assert s1.ents[SC := s1.ents[SC].(isGrant := true)] == s1.ents;
    assert s2.ents[SC := s2.ents[SC].(isGrant := true)] == s2.ents;
  }

  /** The first task to fire takes the second one away, and one grant is left with no task to end it. */
  function AfterFire(s: State, c: Caller): State
    requires SC in s.ents
  {
    var t := c.token;
    BothQueued(s, c).(perm := s.perm.(counts := map[t := 1], deques := map[t := [SaveTaskName(t, 1)]]))
  }

  lemma QueuedTheOtherWay(t: TokenId)
    ensures var (a, b) := (SaveTaskName(t, 1), SaveTaskName(t, 2));
            var p := PushSave(PushSave(BothPosted(t), t, b), t, a);
            && p.deques == map[t := [b, a]] && p.counts == map[t := 2]
            && p.tasks == [Task(a, DELAY_SAVE_REVOKE, RevokeSaveCount(t)),
                           Task(b, DELAY_SAVE_REVOKE, RevokeSaveCount(t))]
  {
    var a, b := SaveTaskName(t, 1), SaveTaskName(t, 2);
    var p1 := PushSave(BothPosted(t), t, b);
    assert DequeOf(BothPosted(t), t) + [b] == [b];
    assert p1.deques == map[t := [b]] && p1.counts == map[t := 1];
    var p2 := PushSave(p1, t, a);
    assert DequeOf(p1, t) + [a] == [b, a];
    assert p2.deques == map[t := [b, a]] && p2.counts == map[t := 2];
  }

  lemma FireTakesTheOther(p: PermState, t: TokenId, a: string, b: string)
    requires p.deques == map[t := [b, a]] && p.counts == map[t := 2]
    requires p.tasks == [Task(b, DELAY_SAVE_REVOKE, RevokeSaveCount(t))]
    ensures RevokeSaveOnce(p, t) == p.(counts := map[t := 1], deques := map[t := [a]], tasks := [])
  {
    assert [b, a][1..] == [a];
    assert p.tasks[1..] == [];
    assert Without(p.tasks, {b}) == [];
  }

  lemma FireStep(s: State, t: TokenId, first: Task, second: Task)
    requires s.perm.tasks == [first, second] && first.callback == RevokeSaveCount(t)
    requires s.lock == Free && s.mapLock == MapFree
    ensures Step(s, FireTask(0), s.(perm := RevokeSaveOnce(s.perm.(tasks := [second]), t)))
  {
    assert RemoveAt(s.perm.tasks, 0) == [second];
  }

  lemma FirstFire(s: State, c: Caller)
    requires CanOverlap(s, c)
    ensures Step(BothQueued(s, c), FireTask(0), AfterFire(s, c))
  {
    var t, last := c.token, BothQueued(s, c);
    var a, b := SaveTaskName(t, 1), SaveTaskName(t, 2);
    var second := Task(b, DELAY_SAVE_REVOKE, RevokeSaveCount(t));
    QueuedTheOtherWay(t);
    FireStep(last, t, Task(a, DELAY_SAVE_REVOKE, RevokeSaveCount(t)), second);
    FireTakesTheOther(last.perm.(tasks := [second]), t, a, b);
  }

  lemma BothOpenRun(states: seq<State>, labels: seq<Label>, c: Caller) returns (more: seq<State>, done: seq<Label>)
    requires RoomyRun(states, labels) && CanOverlap(states[|labels|], c)
    requires forall pid, id :: HasComponent(states[|labels|].procs, pid, id) ==> id == SC
    ensures RoomyRun(more, done) && states <= more && more[|done|] == BothOpen(states[|labels|], c)
  {
    var s := states[|labels|];
    BothOpenSteps(s, c);
    more, done := Extend(states, labels, CallCheck(SaveTap(c)), Called(s, SaveTap(c)));
    more, done := Extend(more, done, Click(0), Accepted(s, Save));
    more, done := Extend(more, done, ClickNotify(NO_TROUBLE), s.(lock := Granting(SC, Begin),
                         log := s.log + [Clicked(SC, Save), WithoutDialog(SC, c.token, Save)]));
    more, done := Extend(more, done, DialogClosed(SC, ON_DIALOG_CLOSED), BothOpen(s, c));
  }

  lemma OverlapRun(states: seq<State>, labels: seq<Label>, s: State, c: Caller)
    returns (more: seq<State>, done: seq<Label>)
    requires CanOverlap(s, c) && RoomyRun(states, labels) && states[|labels|] == BothOpen(s, c)
    requires forall pid, id :: HasComponent(s.procs, pid, id) ==> id == SC
    ensures RoomyRun(more, done) && states <= more && more[|done|] == AfterFire(s, c)
  {
    PostingSteps(s, c);
    QueueingSteps(s, c);
    FirstFire(s, c);
    more, done := Extend(states, labels, ClickGrant(At(1)), ClickPosted(s, c));
    more, done := Extend(more, done, DialogGrant(At(2)), DialogPosted(s, c));
    more, done := Extend(more, done, DialogGrant(At(0)), DialogQueued(s, c));
    more, done := Extend(more, done, ClickGrant(At(0)), BothQueued(s, c));
    more, done := Extend(more, done, FireTask(0), AfterFire(s, c));
  }

  /**
   A token whose save bit was loaded from the record: its location button waits for the
   dialog and is reported as a save button, which is clicked while the dialog closes. Both
   grants post their tasks, and queue them the other way round. After the first task has
   fired the token can save with no grant under way and no task left that would end it.
   */
  lemma OverlapKeepsSavePermission(s: State, c: Caller) returns (states: seq<State>, labels: seq<Label>)
    requires Init(s) && c.token != INVALID_TOKEN && SaveBitSet(s.dialog, c.token)
    ensures RoomyRun(states, labels) && states[0] == s
    ensures var last := states[|labels|];
            && VerifySave(last.perm, c.token) && last.perm.tasks == []
            && last.lock == Free && last.mapLock == MapFree
  {
    states, labels := DialogOpens(s, c, Location, false);
    states, labels := UpdateRun(states, labels, c, Save);
    var waiting := states[|labels|];
    states, labels := BothOpenRun(states, labels, c);
    states, labels := OverlapRun(states, labels, waiting, c);
  }
}
