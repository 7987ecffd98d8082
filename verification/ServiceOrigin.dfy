/**
 Where a component's object comes from: over whole runs, the registration that gave it
 its id also fixed its owner and its authorisation.
 */
module ServiceOrigin {
  import opened Types
  import opened Entity
  import opened FirstUseDialog
  import opened Registry
  import opened Service
  import opened ServiceClicks
  import opened ServiceMalicious
  import Mal = MaliciousApps

  predicate SameIdentity(s: State, s': State, sc: int) {
    && sc in s.ents && sc in s'.ents
    && s'.ents[sc].scId == s.ents[sc].scId && s'.ents[sc].pid == s.ents[sc].pid
    && s'.ents[sc].token == s.ents[sc].token && s'.ents[sc].isCustomAuthorized == s.ents[sc].isCustomAuthorized
  }

  /** The step puts a registration into the register, and its object is what was requested. */
  predicate Adds(s: State, l: Label, s': State, sc: int) {
    && l.RegisterAdd? && l.index < |s.starting| && s.starting[l.index].id == sc && sc in s'.ents
    && var Starting(c, id, report, customAuthorized) := s.starting[l.index];
    s'.ents[sc] == EntityView(id, c.pid, c.token, report, customAuthorized, false, false)
  }

  lemma ClickIdentity(s: State, scId: int, c: Caller, input: ClickInput, sc: int)
    requires sc in s.ents
    ensures SameIdentity(s, DoClick(s, scId, c, input), sc)
  {
    if scId in s.ents {
      ClickKeepsIdentity(s.ents[scId], input, s.foldOffset);
    }
  }

  lemma CallIdentity(s: State, l: Label, s': State, sc: int)
    requires Step(s, l, s') && IsCall(l) && !l.RegisterAdd? && sc in s'.ents
    ensures SameIdentity(s, s', sc)
  {
    OldObject(s, l, s', sc);
    if l.Click? {
      var ClickCall(scId, c, input) := s.passed[l.index];
      ClickIdentity(DropCall(s, l.index), scId, c, input, sc);
    }
  }

  lemma OtherIdentity(s: State, l: Label, s': State, sc: int)
    requires Step(s, l, s') && !IsCall(l) && sc in s'.ents
    ensures SameIdentity(s, s', sc)
  {
    if IsProcessEvent(l) {
      ProcessFrame(s, l);
    } else if IsDialogStep(l) {
      DialogFrame(s, l, sc);
    } else {
      OtherFrame(s, l);
    }
  }

  lemma IdentityStep(s: State, l: Label, s': State, sc: int)
    requires Step(s, l, s') && sc in s'.ents
    ensures SameIdentity(s, s', sc) || Adds(s, l, s', sc)
  {
    if l.RegisterAdd? {
    } else if IsCall(l) {
      CallIdentity(s, l, s', sc);
    } else {
      OtherIdentity(s, l, s', sc);
    }
  }

  /** The last step that put the component into the register. */
  lemma {:induction false} ObjectWasAdded(states: seq<State>, labels: seq<Label>, n: nat, sc: int) returns (k: nat)
    requires IsRun(states, labels) && n < |states| && sc in states[n].ents
    ensures k < n && Adds(states[k], labels[k], states[k + 1], sc)
    ensures forall j :: k < j <= n ==> SameIdentity(states[j], states[n], sc)
  {
    assert n > 0 by {
      assert Init(states[0]);
    }
    assert StepAt(states, labels, n - 1);
    IdentityStep(states[n - 1], labels[n - 1], states[n], sc);
    if SameIdentity(states[n - 1], states[n], sc) {
      k := ObjectWasAdded(states, labels, n - 1, sc);
    } else {
      k := n - 1;
    }
  }

  /** Step `i` checked the registration of the object that state `n` keeps, and gave it its id. */
  ghost predicate Origin(states: seq<State>, labels: seq<Label>, n: nat, sc: int, i: nat) {
    && i < n < |states| && i < |labels| && sc in states[n].ents && labels[i].Register?
    && var (e, c, r) := (states[n].ents[sc], labels[i].caller, labels[i].report);
    && e.scId == sc == FreshId(states[i]) && e.pid == c.pid && e.token == c.token
    && e.isCustomAuthorized == r.customAuthorized && r.report.Some? && r.enhanceRes == SC_OK
    && !(c.uid != 0 && c.pid in states[i].mal.listed)
  }

  /**
   Every object of every reachable state goes back to a registration that passed its
   checks: its id is the one handed out then, its owner is that caller, and it is
   authorised exactly if that application was found to be.
   */
  lemma ObjectWasRegistered(states: seq<State>, labels: seq<Label>, n: nat, sc: int) returns (i: nat)
    requires IsRun(states, labels) && n < |states| && sc in states[n].ents
    ensures Origin(states, labels, n, sc, i)
  {
    var k := ObjectWasAdded(states, labels, n, sc);
    i := RegistrationWasChecked(states, labels, k, states[k].starting[labels[k].index]);
  }

  /**
   An accepted click some check of which failed: it was a click of a component whose
   registration, by the same process, found the application authorised.
   */
  lemma ExcusedClickWasAuthorised(states: seq<State>, labels: seq<Label>, n: nat, sc: int) returns (i: nat)
    requires RoomyRun(states, labels) && n < |labels| && AcceptedClick(states[n], labels[n], sc)
    requires var input := states[n].passed[labels[n].index].click;
             || !(input.messageEmpty || input.bundleBypassed) || !input.report.value.valid
             || input.rectAnswer != RectValid
    ensures Origin(states, labels, n, sc, i) && labels[i].report.customAuthorized
    ensures labels[i].caller.pid == states[n].passed[labels[n].index].caller.pid
    ensures states[n].ents[sc].comp.ty == Save
  {
    i := ObjectWasRegistered(states, labels, n, sc);
    RunWf(states, labels, n);
    assert HasComponent(states[n].procs, states[n].passed[labels[n].index].caller.pid, sc);
  }
}
