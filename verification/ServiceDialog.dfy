/** Dialogs over whole runs: what pays for a dialog and for a grant, and what a save bit goes back to. */
module ServiceDialog {
  import opened Types
  import opened PermManager
  import opened Entity
  import opened FirstUseDialog
  import opened Registry
  import opened Service
  import opened ServiceClicks

  // Clicks, dialogs and grants are paid for one by one

  // What the log tells

  /** What happens for an observer in this step, told by the locks, the objects and the answers alone. */
  function Happening(s: State, l: Label, s': State): seq<Observed>
    requires Enabled(s, l)
  {
    if l.Click? then
      if s'.lock.Notifying? && s'.lock.scId in s'.ents then [Clicked(s'.lock.scId, s'.ents[s'.lock.scId].comp.ty)]
      else []
    else if l.ClickNotify? then
      var (sc, e) := (s.lock.scId, s.ents[s.lock.scId]);
      if s'.lock.Granting? then [WithoutDialog(sc, e.token, e.comp.ty)]
      else if l.dialogAnswer.callerTokenNull || l.dialogAnswer.callbackNull then []
      else [DialogInserted(sc, e.token, e.comp.ty)]
    else if l.DialogClosed? then
      if s'.mapLock.DialogGranting? then [DialogAttempt(l.scId)] else []
    else if l.DialogGrant? then
      var (sc, ty) := (s.mapLock.scId, if s.mapLock.pc.Begin? then s.ents[s.mapLock.scId].comp.ty else s.mapLock.ty);
      if |s'.closing| > |s.closing| then [DialogOk(sc, s.ents[sc].token, ty)] else []
    else if l.SetFirstUseBit? then
      var c := s.closing[l.index];
      if s.ents[c.scId].comp.ty == Save then [BitSet(c.scId, s.ents[c.scId].token, c.shown, c.granted)] else []
    else []
  }

  /** A set bit and a successful grant after a dialog are what the log calls so. */
  ghost predicate LogMeans(s: State, l: Label, s': State)
    requires Enabled(s, l)
  {
    && (l.SetFirstUseBit? && s.ents[s.closing[l.index].scId].comp.ty == Save ==>
          SaveBitSet(s'.dialog, s.ents[s.closing[l.index].scId].token))
    && (l.DialogGrant? && |s'.closing| > |s.closing| ==> s'.mapLock == MapFree && s.mapLock.scId !in s'.dialog.waits)
    && (l.ClickNotify? && !s'.lock.Granting? ==> s'.lock == Free)
    && (!l.SetFirstUseBit? ==> s'.dialog.firstUse == s.dialog.firstUse)
    && (!l.ClickNotify? ==> !s'.lock.Granting? || s.lock.Granting?)
    && (!l.DialogClosed? ==> !s'.mapLock.DialogGranting? || s.mapLock.DialogGranting?)
  }

  lemma NotifyLogs(s: State, l: Label, s': State)
    requires Step(s, l, s') && l.ClickNotify?
    ensures s'.log == s.log + Happening(s, l, s') && LogMeans(s, l, s')
  {
    var e := s.ents[s.lock.scId];
    NotifyMeaning(s.dialog, s.lock.scId, OwnerOfEntity(e), e.comp.ty, l.dialogAnswer);
  }

  lemma BitLogs(s: State, l: Label, s': State)
    requires Step(s, l, s') && l.SetFirstUseBit?
    ensures s'.log == s.log + Happening(s, l, s') && LogMeans(s, l, s')
  {
    var e := s.ents[s.closing[l.index].scId];
    SetFirstUseKeepsBits(s.dialog, e.token, e.comp.ty);
  }

  lemma DialogGrantLogs(s: State, l: Label, s': State)
    requires Step(s, l, s') && l.DialogGrant?
    ensures s'.log == s.log + Happening(s, l, s') && LogMeans(s, l, s')
  {
  }

  lemma ClickGrantLogs(s: State, l: Label, s': State)
    requires Step(s, l, s') && (l.ClickGrant? || l.DialogClosed?)
    ensures s'.log == s.log + Happening(s, l, s') && LogMeans(s, l, s')
  {
  }

  /** The log is the run as an observer sees it: nothing is left out, and nothing is made up. */
  lemma StepLogs(s: State, l: Label, s': State)
    requires Step(s, l, s')
    ensures s'.log == s.log + Happening(s, l, s') && LogMeans(s, l, s')
  {
    if l.ClickNotify? {
      NotifyLogs(s, l, s');
    } else if l.SetFirstUseBit? {
      BitLogs(s, l, s');
    } else if l.DialogGrant? {
      DialogGrantLogs(s, l, s');
    } else if IsDialogStep(l) {
      ClickGrantLogs(s, l, s');
    } else if IsCall(l) {
      CallFrame(s, l);
    } else if IsProcessEvent(l) {
      ProcessFrame(s, l);
    } else {
      OtherFrame(s, l);
    }
  }

  datatype Kind = Clicks | Skips | Inserts | Attempts

  predicate Is(o: Observed, kind: Kind, sc: int) {
    o.scId == sc
    && match kind
       case Clicks => o.Clicked?
       case Skips => o.WithoutDialog?
       case Inserts => o.DialogInserted?
       case Attempts => o.DialogAttempt?
  }

  /**
   How often something happened to a component: clicks accepted, grants begun without a dialog,
   dialogs, grants begun after one.
   */
  function Number(log: seq<Observed>, kind: Kind, sc: int): nat {
    if log == [] then 0
    else Number(log[..|log| - 1], kind, sc) + if Is(log[|log| - 1], kind, sc) then 1 else 0
  }

  lemma NumberSnoc(log: seq<Observed>, o: Observed, kind: Kind, sc: int)
    ensures Number(log + [o], kind, sc) == Number(log, kind, sc) + if Is(o, kind, sc) then 1 else 0
  {
    assert (log + [o])[..|log|] == log;
  }

  predicate WaitsIdle(s: State, sc: int) {
    sc in s.dialog.waits && !InDialogGrant(s, sc)
  }

  /** Every grant begun was paid by a dialog or a click, every dialog by a click, and none is spent twice. */
  ghost predicate Paid(s: State, sc: int) {
    && Number(s.log, Attempts, sc) + (if WaitsIdle(s, sc) then 1 else 0) <= Number(s.log, Inserts, sc)
    && Number(s.log, Inserts, sc) + Number(s.log, Skips, sc) + (if s.lock == Notifying(sc) then 1 else 0)
       <= Number(s.log, Clicks, sc)
  }

  lemma SameLogPaid(s: State, s': State, sc: int)
    requires Paid(s, sc) && s'.log == s.log
    requires s'.lock == Notifying(sc) ==> s.lock == Notifying(sc)
    requires WaitsIdle(s', sc) ==> WaitsIdle(s, sc)
    ensures Paid(s', sc)
  {
  }

  lemma OneMoreEvent(log: seq<Observed>, o: Observed, sc: int)
    ensures forall kind :: Number(log + [o], kind, sc) == Number(log, kind, sc) + if Is(o, kind, sc) then 1 else 0
  {
    forall kind {
      NumberSnoc(log, o, kind, sc);
    }
  }

  lemma ClickPaid(s: State, scId: int, c: Caller, input: ClickInput, sc: int)
    requires Paid(s, sc) && s.lock == Free
    ensures Paid(DoClick(s, scId, c, input), sc)
  {
    var s' := DoClick(s, scId, c, input);
    if s'.log == s.log {
      SameLogPaid(s, s', sc);
    } else {
      OneMoreEvent(s.log, s'.log[|s.log|], sc);
    }
  }

  lemma NotifyEffect(s: State, a: DialogAnswer)
    requires Enabled(s, ClickNotify(a))
    ensures var (s', sc) := (DoNotify(s, a), s.lock.scId);
            && !s'.lock.Notifying? && s'.mapLock == s.mapLock
            && (forall x :: x != sc ==> (x in s'.dialog.waits <==> x in s.dialog.waits))
            && if Shows(s, ClickNotify(a), sc) then
                 s'.log == s.log + [DialogInserted(sc, s.ents[sc].token, s.ents[sc].comp.ty)]
               else
                 && (sc in s'.dialog.waits <==> sc in s.dialog.waits)
                 && (s'.log == s.log || s'.log == s.log + [WithoutDialog(sc, s.ents[sc].token, s.ents[sc].comp.ty)])
  {
    var e := s.ents[s.lock.scId];
    NotifyMeaning(s.dialog, s.lock.scId, OwnerOfEntity(e), e.comp.ty, a);
  }

  lemma NotifyPaid(s: State, a: DialogAnswer, sc: int)
    requires Paid(s, sc) && Enabled(s, ClickNotify(a))
    ensures Paid(DoNotify(s, a), sc)
  {
    NotifyEffect(s, a);
    LoggedPaid(s, DoNotify(s, a), sc);
  }

  /** What one more event has to pay for: a wait, an attempt, a dialog or a grant without one. */
  lemma LoggedPaid(s: State, s': State, sc: int)
    requires Paid(s, sc)
    requires s'.log == s.log || (|s'.log| == |s.log| + 1 && s'.log == s.log + [s'.log[|s.log|]])
    requires var mine := |s'.log| == |s.log| + 1 && s'.log[|s.log|].scId == sc;
             var o := if mine then s'.log[|s.log|] else BitSet(sc, INVALID_TOKEN, Unknown, Unknown);
             && (if WaitsIdle(s', sc) then 1 else 0) + (if o.DialogAttempt? then 1 else 0)
                <= (if WaitsIdle(s, sc) then 1 else 0) + (if o.DialogInserted? then 1 else 0)
             && (if s'.lock == Notifying(sc) then 1 else 0) + (if o.DialogInserted? || o.WithoutDialog? then 1 else 0)
                <= (if s.lock == Notifying(sc) then 1 else 0) + (if o.Clicked? then 1 else 0)
    ensures Paid(s', sc)
  {
    if s'.log != s.log {
      OneMoreEvent(s.log, s'.log[|s.log|], sc);
    }
  }

  lemma ClosedPaid(s: State, scId: int, result: int, sc: int)
    requires Paid(s, sc) && s.mapLock == MapFree
    ensures Paid(DoDialogClosed(s, scId, result), sc)
  {
    OneMoreEvent(s.log, DialogAttempt(scId), sc);
  }

  lemma DialogGrantEffect(s: State, a: Answer)
    requires Enabled(s, DialogGrant(a))
    ensures var (s', sc) := (DoDialogGrant(s, a), s.mapLock.scId);
            && s'.lock == s.lock
            && (forall x :: WaitsIdle(s', x) ==> WaitsIdle(s, x))
            && (s'.log == s.log || s'.log == s.log + [DialogOk(sc, s.ents[sc].token, DialogType(s))])
  {
  }

  lemma DialogGrantPaid(s: State, a: Answer, sc: int)
    requires Paid(s, sc) && Enabled(s, DialogGrant(a))
    ensures Paid(DoDialogGrant(s, a), sc)
  {
    DialogGrantEffect(s, a);
    LoggedPaid(s, DoDialogGrant(s, a), sc);
  }

  lemma BitEffect(s: State, k: nat)
    requires Enabled(s, SetFirstUseBit(k))
    ensures var (s', c) := (DoSetFirstUseBit(s, k), s.closing[k]);
            && s'.lock == s.lock && s'.mapLock == s.mapLock && s'.dialog.waits == s.dialog.waits
            && (s'.log == s.log || s'.log == s.log + [BitSet(c.scId, s.ents[c.scId].token, c.shown, c.granted)])
  {
  }

  lemma BitPaid(s: State, k: nat, sc: int)
    requires Paid(s, sc) && Enabled(s, SetFirstUseBit(k))
    ensures Paid(DoSetFirstUseBit(s, k), sc)
  {
    BitEffect(s, k);
    LoggedPaid(s, DoSetFirstUseBit(s, k), sc);
  }

  lemma StepPaid(s: State, l: Label, s': State, sc: int)
    requires Paid(s, sc) && Step(s, l, s')
    ensures Paid(s', sc)
  {
    if l.Click? {
      ClickPaid(DropCall(s, l.index), s.passed[l.index].scId, s.passed[l.index].caller, s.passed[l.index].click, sc);
    } else if IsCall(l) {
      CallFrame(s, l);
    } else if IsProcessEvent(l) {
      ProcessFrame(s, l);
      ProcessWaits(s, l, sc);
    } else if IsDialogStep(l) {
      DialogStepPaid(s, l, s', sc);
    } else {
      OtherFrame(s, l);
    }
  }

  lemma DialogStepPaid(s: State, l: Label, s': State, sc: int)
    requires Paid(s, sc) && Step(s, l, s') && IsDialogStep(l)
    ensures Paid(s', sc)
  {
    match l {
      case ClickNotify(a) => NotifyPaid(s, a, sc);
      case ClickGrant(a) => SameLogPaid(s, s', sc);
      case DialogClosed(scId, result) => ClosedPaid(s, scId, result, sc);
      case DialogGrant(a) => DialogGrantPaid(s, a, sc);
      case SetFirstUseBit(k) => BitPaid(s, k, sc);
    }
  }

  lemma {:induction false} RunPaid(states: seq<State>, labels: seq<Label>, n: nat, sc: int)
    requires IsRun(states, labels) && n < |states|
    ensures Paid(states[n], sc)
  {
    NothingAtStart(states[0], sc);
    if n > 0 {
      RunPaid(states, labels, n - 1, sc);
      assert StepAt(states, labels, n - 1);
      StepPaid(states[n - 1], labels[n - 1], states[n], sc);
    }
  }

  /**
   Over any run, for each component: grants begun after a dialog never outnumber its
   dialogs, and dialogs and grants begun without one together never outnumber the
   clicks that were accepted. So no click is ever spent on two grants.
   */
  lemma EveryGrantIsPaid(states: seq<State>, labels: seq<Label>, n: nat, sc: int)
    requires IsRun(states, labels) && n < |states|
    ensures var log := states[n].log;
            && Number(log, Attempts, sc) <= Number(log, Inserts, sc)
            && Number(log, Inserts, sc) + Number(log, Skips, sc) <= Number(log, Clicks, sc)
  {
    RunPaid(states, labels, n, sc);
  }

  // What a save bit goes back to

  /** The component was shown a dialog for one type, and later granted after it by another, or the same. */
  ghost predicate Founded(log: seq<Observed>, sc: int, t: TokenId, shown: SecCompType, granted: SecCompType) {
    exists h: nat, k: nat :: h < k < |log| && log[h] == DialogInserted(sc, t, shown) &&
      log[k] == DialogOk(sc, t, granted)
  }

  ghost predicate BitLogged(log: seq<Observed>, t: TokenId) {
    exists j: nat :: j < |log| && log[j].BitSet? && log[j].token == t
  }

  /** A save bit was set after a dialog and its grant; a save click went on without a dialog by a bit loaded or set. */
  ghost predicate Justified(first: DialogState, before: seq<Observed>, o: Observed) {
    && (o.BitSet? ==> Founded(before, o.scId, o.token, o.shown, o.granted))
    && (o.WithoutDialog? && o.ty == Save ==> SaveBitSet(first, o.token) || BitLogged(before, o.token))
  }

  ghost predicate LogJustified(first: DialogState, log: seq<Observed>) {
    forall j: nat :: j < |log| ==> Justified(first, log[..j], log[j])
  }

  ghost predicate BitKnown(first: DialogState, s: State, t: TokenId) {
    SaveBitSet(s.dialog, t) ==> SaveBitSet(first, t) || BitLogged(s.log, t)
  }

  ghost predicate ClosingKnown(s: State, c: Closing) {
    c.scId in s.ents && Founded(s.log, c.scId, s.ents[c.scId].token, c.shown, c.granted)
  }

  ghost predicate WaitKnown(s: State, sc: int) {
    sc in s.shown && sc in s.ents && DialogInserted(sc, s.ents[sc].token, s.shown[sc]) in s.log
  }

  ghost predicate BitsInv(first: DialogState, s: State) {
    && LogJustified(first, s.log)
    && (forall t: TokenId :: BitKnown(first, s, t))
    && (forall c :: c in s.closing ==> ClosingKnown(s, c))
    && (forall sc :: sc in s.dialog.waits ==> WaitKnown(s, sc))
  }

  predicate SameShown(s: State, s': State, sc: int) {
    sc in s.shown ==> sc in s'.shown && s'.shown[sc] == s.shown[sc]
  }

  lemma LogGrows(first: DialogState, log: seq<Observed>, o: Observed)
    requires LogJustified(first, log) && Justified(first, log, o)
    ensures LogJustified(first, log + [o])
  {
    var all := log + [o];
    forall j: nat | j < |all| ensures Justified(first, all[..j], all[j]) {
      assert all[..j] == log[..j] && (j < |log| ==> all[j] == log[j]);
    }
  }

  lemma FoundedStays(log: seq<Observed>, more: seq<Observed>, sc: int, t: TokenId, shown: SecCompType,
        granted: SecCompType)
    requires Founded(log, sc, t, shown, granted)
    ensures Founded(log + more, sc, t, shown, granted)
  {
    var h: nat, k: nat :| h < k < |log| && log[h] == DialogInserted(sc, t, shown) && log[k] == DialogOk(sc, t, granted);
    assert (log + more)[h] == log[h] && (log + more)[k] == log[k];
  }

  lemma BitLoggedStays(log: seq<Observed>, more: seq<Observed>, t: TokenId)
    requires BitLogged(log, t)
    ensures BitLogged(log + more, t)
  {
    var j: nat :| j < |log| && log[j].BitSet? && log[j].token == t;
    assert (log + more)[j] == log[j];
  }

  /** What is known of bits, closings and waits stays known while the log grows and their objects keep their owners. */
  lemma KnownStays(first: DialogState, s: State, s': State, more: seq<Observed>)
    requires BitsInv(first, s) && s'.log == s.log + more
    ensures forall t: TokenId :: SaveBitSet(s'.dialog, t) == SaveBitSet(s.dialog, t) ==> BitKnown(first, s', t)
    ensures forall c :: c in s.closing && SameOwnerOf(s, s', c.scId) ==> ClosingKnown(s', c)
    ensures forall sc :: sc in s.dialog.waits && SameOwnerOf(s, s', sc) && SameShown(s, s', sc) ==> WaitKnown(s', sc)
  {
    forall t: TokenId | SaveBitSet(s'.dialog, t) == SaveBitSet(s.dialog, t) ensures BitKnown(first, s', t) {
      assert BitKnown(first, s, t);
      if BitLogged(s.log, t) {
        BitLoggedStays(s.log, more, t);
      }
    }
    forall c | c in s.closing && SameOwnerOf(s, s', c.scId) ensures ClosingKnown(s', c) {
      assert ClosingKnown(s, c);
      FoundedStays(s.log, more, c.scId, s.ents[c.scId].token, c.shown, c.granted);
    }
    forall sc | sc in s.dialog.waits && SameOwnerOf(s, s', sc) && SameShown(s, s', sc) ensures WaitKnown(s', sc) {
      assert WaitKnown(s, sc);
    }
  }

  lemma QuietBits(first: DialogState, s: State, s': State, more: seq<Observed>)
    requires BitsInv(first, s) && s'.log == s.log + more
    requires more == [] || (|more| == 1 && Justified(first, s.log, more[0]))
    requires s'.dialog.firstUse == s.dialog.firstUse && s'.shown == s.shown
    requires forall c :: c in s'.closing ==> c in s.closing && SameOwnerOf(s, s', c.scId)
    requires forall sc :: sc in s'.dialog.waits ==> sc in s.dialog.waits && SameOwnerOf(s, s', sc)
    ensures BitsInv(first, s')
  {
    if more != [] {
      LogGrows(first, s.log, more[0]);
      assert s'.log == s.log + [more[0]];
    } else {
      assert s'.log == s.log;
    }
    KnownStays(first, s, s', more);
  }

  /** What a step does not log, forget or show is known as before. */
  lemma NotedBits(first: DialogState, s: State, l: Label, s': State, more: seq<Observed>)
    requires Wf(s) && BitsInv(first, s) && Step(s, l, s') && s'.log == s.log + more
    requires more == [] || (|more| == 1 && Justified(first, s.log, more[0]))
    requires s'.dialog.firstUse == s.dialog.firstUse && s'.shown == s.shown
    requires forall c :: c in s'.closing ==> c in s.closing
    requires forall sc :: sc in s'.dialog.waits ==> sc in s.dialog.waits
    ensures BitsInv(first, s')
  {
    forall c | c in s'.closing ensures SameOwnerOf(s, s', c.scId) {
      ClosersKeepOwner(s, l, s', c);
    }
    forall sc | sc in s'.dialog.waits ensures SameOwnerOf(s, s', sc) {
      WaitersKeepOwner(s, l, s', sc);
    }
    QuietBits(first, s, s', more);
  }

  lemma CallBits(first: DialogState, s: State, l: Label, s': State)
    requires Wf(s) && BitsInv(first, s) && Step(s, l, s') && IsCall(l)
    ensures BitsInv(first, s')
  {
    CallFrame(s, l);
    var more := s'.log[|s.log|..];
    assert s'.log == s.log + more by {
      assert l.Click? ==> DropCall(s, l.index).log == s.log;
    }
    NotedBits(first, s, l, s', more);
  }

  lemma ProcessBits(first: DialogState, s: State, l: Label, s': State)
    requires Wf(s) && BitsInv(first, s) && Step(s, l, s') && IsProcessEvent(l)
    ensures BitsInv(first, s')
  {
    ProcessFrame(s, l);
    forall sc | sc in s'.dialog.waits ensures sc in s.dialog.waits {
      ProcessWaits(s, l, sc);
    }
    assert s'.log == s.log + [];
    NotedBits(first, s, l, s', []);
  }

  lemma NotifyBits(first: DialogState, s: State, a: DialogAnswer, s': State)
    requires Wf(s) && BitsInv(first, s) && Step(s, ClickNotify(a), s')
    ensures BitsInv(first, s')
  {
    var scId := s.lock.scId;
    var e := s.ents[scId];
    NotifyMeaning(s.dialog, scId, OwnerOfEntity(e), e.comp.ty, a);
    if Shows(s, ClickNotify(a), scId) {
      ShowBits(first, s, a, s');
    } else {
      assert BitKnown(first, s, e.token);
      var more := s'.log[|s.log|..];
      assert s'.log == s.log + more;
      NotedBits(first, s, ClickNotify(a), s', more);
    }
  }

  lemma ShowBits(first: DialogState, s: State, a: DialogAnswer, s': State)
    requires Wf(s) && BitsInv(first, s) && Step(s, ClickNotify(a), s') && Shows(s, ClickNotify(a), s.lock.scId)
    ensures BitsInv(first, s')
  {
    var scId := s.lock.scId;
    var e := s.ents[scId];
    var o := DialogInserted(scId, e.token, e.comp.ty);
    NotifyMeaning(s.dialog, scId, OwnerOfEntity(e), e.comp.ty, a);
    LogGrows(first, s.log, o);
    KnownStays(first, s, s', [o]);
    assert s'.log[|s.log|] == o;
    forall c | c in s'.closing ensures ClosingKnown(s', c) {
      ClosersKeepOwner(s, ClickNotify(a), s', c);
    }
  }

  lemma DialogGrantBits(first: DialogState, s: State, a: Answer, s': State)
    requires Wf(s) && BitsInv(first, s) && Step(s, DialogGrant(a), s')
    ensures BitsInv(first, s')
  {
    if s'.log == s.log {
      assert s'.log == s.log + [];
      NotedBits(first, s, DialogGrant(a), s', []);
    } else {
      OkBits(first, s, a, s');
    }
  }

  lemma OkFounded(first: DialogState, s: State)
    requires Wf(s) && BitsInv(first, s) && s.mapLock.DialogGranting? && s.mapLock.scId in s.ents
    ensures var sc := s.mapLock.scId;
            var o := DialogOk(sc, s.ents[sc].token, DialogType(s));
            Founded(s.log + [o], sc, s.ents[sc].token, ShownType(s, sc), DialogType(s))
  {
    var sc := s.mapLock.scId;
    var o := DialogOk(sc, s.ents[sc].token, DialogType(s));
    assert WaitKnown(s, sc);
    var h: nat :| h < |s.log| && s.log[h] == DialogInserted(sc, s.ents[sc].token, s.shown[sc]);
    var all := s.log + [o];
    assert all[h] == s.log[h] && all[|s.log|] == o;
  }

  lemma OkBits(first: DialogState, s: State, a: Answer, s': State)
    requires Wf(s) && BitsInv(first, s) && Step(s, DialogGrant(a), s') && s'.log != s.log
    ensures BitsInv(first, s')
  {
    var sc := s.mapLock.scId;
    var o := DialogOk(sc, s.ents[sc].token, DialogType(s));
    OkFounded(first, s);
    LogGrows(first, s.log, o);
    KnownStays(first, s, s', [o]);
    forall c | c in s'.closing ensures ClosingKnown(s', c) {
      if c in s.closing {
        ClosersKeepOwner(s, DialogGrant(a), s', c);
      } else {
        assert c == Closing(sc, ShownType(s, sc), DialogType(s));
      }
    }
    forall x | x in s'.dialog.waits ensures WaitKnown(s', x) {
      WaitersKeepOwner(s, DialogGrant(a), s', x);
    }
  }

  lemma SetBitBits(first: DialogState, s: State, k: nat, s': State)
    requires Wf(s) && BitsInv(first, s) && Step(s, SetFirstUseBit(k), s')
    ensures BitsInv(first, s')
  {
    var c := s.closing[k];
    var e := s.ents[c.scId];
    assert c in s.closing && ClosingKnown(s, c);
    if e.comp.ty != Save {
      assert s'.log == s.log + [];
      NotedBits(first, s, SetFirstUseBit(k), s', []);
    } else {
      BitSetBits(first, s, k, s');
    }
  }

  lemma BitSetBits(first: DialogState, s: State, k: nat, s': State)
    requires Wf(s) && BitsInv(first, s) && Step(s, SetFirstUseBit(k), s')
    requires s.ents[s.closing[k].scId].comp.ty == Save
    ensures BitsInv(first, s')
  {
    var c := s.closing[k];
    var e := s.ents[c.scId];
    var o := BitSet(c.scId, e.token, c.shown, c.granted);
    assert c in s.closing && ClosingKnown(s, c);
    LogGrows(first, s.log, o);
    KnownStays(first, s, s', [o]);
    SetFirstUseKeepsBits(s.dialog, e.token, Save);
    assert s'.log[|s.log|] == o;
    forall t: TokenId ensures BitKnown(first, s', t) {
      if t == e.token {
        assert BitLogged(s'.log, t);
      }
    }
  }

  lemma ClosedBits(first: DialogState, s: State, l: Label, s': State)
    requires Wf(s) && BitsInv(first, s) && Step(s, l, s') && (l.ClickGrant? || l.DialogClosed?)
    ensures BitsInv(first, s')
  {
    var more := if s'.log == s.log then [] else [DialogAttempt(l.scId)];
    assert s'.log == s.log + more;
    NotedBits(first, s, l, s', more);
  }

  lemma DialogStepBits(first: DialogState, s: State, l: Label, s': State)
    requires Wf(s) && BitsInv(first, s) && Step(s, l, s') && IsDialogStep(l)
    ensures BitsInv(first, s')
  {
    if l.ClickNotify? {
      NotifyBits(first, s, l.dialogAnswer, s');
    } else if l.DialogGrant? {
      DialogGrantBits(first, s, l.answer, s');
    } else if l.SetFirstUseBit? {
      SetBitBits(first, s, l.index, s');
    } else {
      ClosedBits(first, s, l, s');
    }
  }

  lemma StepBits(first: DialogState, s: State, l: Label, s': State)
    requires Wf(s) && BitsInv(first, s) && Step(s, l, s')
    ensures BitsInv(first, s')
  {
    if IsCall(l) {
      CallBits(first, s, l, s');
    } else if IsProcessEvent(l) {
      ProcessBits(first, s, l, s');
    } else if IsDialogStep(l) {
      DialogStepBits(first, s, l, s');
    } else {
      OtherFrame(s, l);
      assert s'.log == s.log + [];
      NotedBits(first, s, l, s', []);
    }
  }

  lemma {:induction false} RunBits(states: seq<State>, labels: seq<Label>, n: nat)
    requires RoomyRun(states, labels) && n < |states|
    ensures BitsInv(states[0].dialog, states[n])
  {
    if n > 0 {
      RunBits(states, labels, n - 1);
      RunWf(states, labels, n - 1);
      assert StepAt(states, labels, n - 1);
      StepBits(states[0].dialog, states[n - 1], labels[n - 1], states[n]);
    }
  }

  /**
   Over any run: a save click that went on without a dialog was for a token whose bit
   was loaded at the start, or had been set before; and that bit was set after a dialog
   of the same token and a grant that followed it, for the types the events name.
   */
  lemma SaveClickWithoutDialog(states: seq<State>, labels: seq<Label>, n: nat, i: nat) returns (h: nat, k: nat, j: nat)
    requires RoomyRun(states, labels) && n < |states| && i < |states[n].log|
    requires states[n].log[i].WithoutDialog? && states[n].log[i].ty == Save
    requires !SaveBitSet(states[0].dialog, states[n].log[i].token)
    ensures var log := states[n].log;
            && h < k < j < i && log[j].BitSet? && log[j].token == log[i].token
            && log[k] == DialogOk(log[j].scId, log[j].token, log[j].granted)
            && log[h] == DialogInserted(log[j].scId, log[j].token, log[j].shown)
  {
    RunBits(states, labels, n);
    var log := states[n].log;
    assert Justified(states[0].dialog, log[..i], log[i]);
    j :| j < |log[..i]| && log[..i][j].BitSet? && log[..i][j].token == log[i].token;
    assert Justified(states[0].dialog, log[..j], log[j]);
    h, k :| h < k < |log[..j]|
            && log[..j][h] == DialogInserted(log[j].scId, log[j].token, log[j].shown)
            && log[..j][k] == DialogOk(log[j].scId, log[j].token, log[j].granted);
  }

  lemma DialogStepKeepsBits(s: State, l: Label, s': State)
    requires Step(s, l, s') && IsDialogStep(l)
    ensures BitsKept(s.dialog.firstUse, s'.dialog.firstUse)
  {
    if l.SetFirstUseBit? {
      var e := s.ents[s.closing[l.index].scId];
      SetFirstUseKeepsBits(s.dialog, e.token, e.comp.ty);
    } else {
      assert s'.dialog.firstUse == s.dialog.firstUse;
    }
  }

  lemma StepKeepsBits(s: State, l: Label, s': State)
    requires Step(s, l, s')
    ensures BitsKept(s.dialog.firstUse, s'.dialog.firstUse)
  {
    if IsCall(l) {
      CallFrame(s, l);
    } else if IsProcessEvent(l) {
      ProcessFrame(s, l);
    } else if IsDialogStep(l) {
      DialogStepKeepsBits(s, l, s');
    } else {
      OtherFrame(s, l);
    }
  }

  lemma FlagsTransitive(a: map<TokenId, Flags>, b: map<TokenId, Flags>, c: map<TokenId, Flags>)
    requires BitsKept(a, b) && BitsKept(b, c)
    ensures BitsKept(a, c)
  {
  }

  /** Loaded bits are never lost. */
  lemma {:induction false} RunKeepsBits(states: seq<State>, labels: seq<Label>, n: nat)
    requires IsRun(states, labels) && n < |states|
    ensures BitsKept(states[0].dialog.firstUse, states[n].dialog.firstUse)
  {
    if n > 0 {
      RunKeepsBits(states, labels, n - 1);
      assert StepAt(states, labels, n - 1);
      StepKeepsBits(states[n - 1], labels[n - 1], states[n]);
      FlagsTransitive(states[0].dialog.firstUse, states[n - 1].dialog.firstUse, states[n].dialog.firstUse);
    }
  }

  // When the type stays what it was

  /** The step ends a grant after a dialog, and the component's bit is to be set next. */
  predicate Closes(s: State, l: Label, c: Closing) {
    && l.DialogGrant? && InDialogGrant(s, c.scId) && c.scId in s.ents
    && c == Closing(c.scId, ShownType(s, c.scId), DialogType(s))
  }

  lemma ClosingStep(s: State, l: Label, s': State, c: Closing)
    requires Step(s, l, s') && c in s'.closing
    ensures c in s.closing || Closes(s, l, c)
  {
    if IsCall(l) {
      CallFrame(s, l);
    } else if IsProcessEvent(l) {
      ProcessFrame(s, l);
    } else if !IsDialogStep(l) {
      OtherFrame(s, l);
    }
  }

  lemma {:induction false} ClosedAt(states: seq<State>, labels: seq<Label>, n: nat, c: Closing) returns (e: nat)
    requires IsRun(states, labels) && n < |states| && c in states[n].closing
    ensures e < n && StepAt(states, labels, e) && Closes(states[e], labels[e], c)
  {
    assert n > 0 by {
      assert Init(states[0]);
    }
    e := n - 1;
    assert StepAt(states, labels, e);
    ClosingStep(states[e], labels[e], states[n], c);
    if c in states[e].closing {
      e := ClosedAt(states, labels, n - 1, c);
    }
  }

  /** The dialog, at step `h`, and the first section of the grant after it, at step `b`, that a bit is set for. */
  lemma ClosingSince(states: seq<State>, labels: seq<Label>, n: nat, c: Closing) returns (i: nat, h: nat, b: nat)
    requires RoomyRun(states, labels) && n < |states| && c in states[n].closing
    ensures b < n && WaitHistory(states, labels, b, c.scId, i, h) && c.shown == states[h].ents[c.scId].comp.ty
    ensures Begins(states[b], labels[b], c.scId, c.granted)
  {
    var e := ClosedAt(states, labels, n, c);
    b := BeginOf(states, labels, e);
    i, h := WaitingSince(states, labels, b, c.scId);
    ShownStays(states, labels, b, e, c.scId, states[h].ents[c.scId].comp.ty);
  }

  lemma ShownAt(states: seq<State>, labels: seq<Label>, i: nat, sc: int)
    requires IsRun(states, labels) && i < |labels| && InDialogGrant(states[i], sc)
    ensures states[i + 1].shown == states[i].shown
  {
    assert StepAt(states, labels, i);
    OtherWaits(states[i], labels[i], states[i + 1], sc);
  }

  /** No dialog is shown while one is being granted. */
  lemma {:induction false} ShownStays(states: seq<State>, labels: seq<Label>, b: nat, n: nat, sc: int, ty: SecCompType)
    requires IsRun(states, labels) && b <= n < |states| && WaitsFor(states[b], sc, ty)
    requires forall j :: b <= j <= n ==> InDialogGrant(states[j], sc)
    ensures ShownType(states[n], sc) == ty
  {
    if b < n {
      ShownStays(states, labels, b, n - 1, sc, ty);
      ShownAt(states, labels, n - 1, sc);
    }
  }

  predicate KeepsType(s: State, s': State, sc: int) {
    sc in s.ents && sc in s'.ents && s'.ents[sc].comp.ty == s.ents[sc].comp.ty
  }

  /**
   A step that sets a save bit, at state `n`, does so for a dialog shown at step `h` and
   granted from step `b` on, and its event names the types the component had then. Both
   are save exactly when the component had the same type at all three places where the
   service reads it, and so whenever no report in between changed it.
   */
  lemma BitAgreesWithDialog(states: seq<State>, labels: seq<Label>, n: nat) returns (c: Closing, i: nat, h: nat, b: nat)
    requires RoomyRun(states, labels) && n < |labels| && labels[n].SetFirstUseBit?
    ensures c in states[n].closing && c.scId in states[n].ents
    ensures b < n && WaitHistory(states, labels, b, c.scId, i, h) && Begins(states[b], labels[b], c.scId, c.granted)
    ensures var ty := states[n].ents[c.scId].comp.ty;
            var o := BitSet(c.scId, states[n].ents[c.scId].token, c.shown, c.granted);
            && states[n + 1].log == (if ty == Save then states[n].log + [o] else states[n].log)
            && (ty == Save ==>
                 (c.shown == Save && c.granted == Save
                  <==> states[h].ents[c.scId].comp.ty == states[b].ents[c.scId].comp.ty == ty))
            && ((forall j :: h <= j < n ==> KeepsType(states[j], states[j + 1], c.scId)) ==> c.shown == c.granted == ty)
  {
    assert StepAt(states, labels, n);
    c := states[n].closing[labels[n].index];
    i, h, b := ClosingSince(states, labels, n, c);
    if forall j :: h <= j < n ==> KeepsType(states[j], states[j + 1], c.scId) {
      TypeKept(states, labels, h, b, c.scId);
      TypeKept(states, labels, h, n, c.scId);
    }
  }

  lemma {:induction false} TypeKept(states: seq<State>, labels: seq<Label>, h: nat, n: nat, sc: int)
    requires h <= n < |states| && sc in states[h].ents
    requires forall j :: h <= j < n ==> KeepsType(states[j], states[j + 1], sc)
    ensures sc in states[n].ents && states[n].ents[sc].comp.ty == states[h].ents[sc].comp.ty
  {
    if h < n {
      TypeKept(states, labels, h, n - 1, sc);
      assert KeepsType(states[n - 1], states[n - 1 + 1], sc);
    }
  }
}
