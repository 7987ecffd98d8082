/** Calls of processes on the malicious list: when they still change something. */
module ServiceMalicious {
  import opened Types
  import opened PermManager
  import opened Entity
  import opened FirstUseDialog
  import opened Registry
  import opened Service
  import Mal = MaliciousApps

  // The check is one step, the locked section another

  /**
   A check that gets past everything but the list: enough remote objects, or a registration with
   a report that passes.
   */
  predicate ReachesList(l: Label) {
    || (l.CallCheck? && (l.call.ClickCall? ==> l.call.click.remotes >= REPORT_REMOTE_OBJECT_SIZE))
    || (l.Register? && l.report.report.Some?)
  }

  function CallerOf(l: Label): Caller
    requires l.CallCheck? || l.Register?
  {
    if l.CallCheck? then l.call.caller else l.caller
  }

  /** A check that reaches the list changes nothing exactly when its process is blocked then. */
  lemma CheckStopsBlocked(s: State, l: Label, s': State)
    requires Step(s, l, s') && ReachesList(l)
    ensures s' == s <==> Mal.Blocked(s.mal, CallerOf(l).pid, CallerOf(l).uid)
  {
    if l.CallCheck? {
      assert |(s.passed + [l.call])| == |s.passed| + 1;
    } else {
      RegisterStopsBlocked(s, l.caller, l.report);
    }
  }

  lemma RegisterStopsBlocked(s: State, c: Caller, r: ReportInput)
    requires r.report.Some?
    ensures DoRegister(s, c, r) == s <==> Mal.Blocked(s.mal, c.pid, c.uid)
  {
    var s' := DoRegister(s, c, r);
    if !Mal.Blocked(s.mal, c.pid, c.uid) {
      if r.enhanceRes != SC_OK {
        assert Mal.CountOf(s'.mal, c.pid) == (Mal.CountOf(s.mal, c.pid) + 1) % UINT32_RANGE;
      } else {
        assert |s'.starting| == |s.starting| + 1;
      }
    }
  }

  /** The locked sections of calls. */
  predicate IsSection(l: Label) {
    l.RegisterAdd? || l.Update? || l.Click?
  }

  /** A locked section does what it does whoever is on the list: only the list and the counts differ afterwards. */
  lemma SectionsIgnoreList(s: State, l: Label, m: Mal.MalState)
    requires Enabled(s, l) && IsSection(l)
    ensures var other := s.(mal := m);
            Enabled(other, l) && Exec(other, l) == Exec(s, l).(mal := Exec(other, l).mal)
  {
  }

  // Every section was checked

  lemma CallPasses(s: State, l: Label, call: Call)
    requires Enabled(s, l) && IsCall(l) && call in Exec(s, l).passed
    ensures call in s.passed || (l == CallCheck(call) && !Mal.Blocked(s.mal, call.caller.pid, call.caller.uid))
  {
  }

  lemma PassedStep(s: State, l: Label, s': State, call: Call)
    requires Step(s, l, s') && call in s'.passed
    ensures call in s.passed || (l == CallCheck(call) && !Mal.Blocked(s.mal, call.caller.pid, call.caller.uid))
  {
    if IsCall(l) {
      CallPasses(s, l, call);
    } else if IsProcessEvent(l) {
      ProcessFrame(s, l);
    } else if IsDialogStep(l) {
      DialogMal(s, l);
    } else {
      OtherFrame(s, l);
    }
  }

  /** The step is the check of this registration, which passed and was given its id. */
  predicate Requests(s: State, l: Label, x: Starting) {
    && l == Register(x.caller, ReportInput(Some(x.report), SC_OK, x.customAuthorized))
    && x.id == FreshId(s) && !Mal.Blocked(s.mal, x.caller.pid, x.caller.uid)
  }

  lemma CallStarts(s: State, l: Label, x: Starting)
    requires Enabled(s, l) && IsCall(l) && x in Exec(s, l).starting
    ensures x in s.starting || Requests(s, l, x)
  {
  }

  lemma StartingStep(s: State, l: Label, s': State, x: Starting)
    requires Step(s, l, s') && x in s'.starting
    ensures x in s.starting || Requests(s, l, x)
  {
    if IsCall(l) {
      CallStarts(s, l, x);
    } else if IsProcessEvent(l) {
      ProcessFrame(s, l);
    } else if IsDialogStep(l) {
      DialogMal(s, l);
    } else {
      OtherFrame(s, l);
    }
  }

  /** A call that waits for the component lock was checked, at step `i`, and was not blocked then. */
  lemma {:induction false} CallWasChecked(states: seq<State>, labels: seq<Label>, n: nat, call: Call) returns (i: nat)
    requires IsRun(states, labels) && n < |states| && call in states[n].passed
    ensures i < n && labels[i] == CallCheck(call) && !Mal.Blocked(states[i].mal, call.caller.pid, call.caller.uid)
  {
    assert n > 0 by {
      assert Init(states[0]);
    }
    i := n - 1;
    assert StepAt(states, labels, i);
    PassedStep(states[i], labels[i], states[n], call);
    if call in states[i].passed {
      i := CallWasChecked(states, labels, n - 1, call);
    }
  }

  lemma {:induction false} RegistrationWasChecked(states: seq<State>, labels: seq<Label>, n: nat, x: Starting)
    returns (i: nat)
    requires IsRun(states, labels) && n < |states| && x in states[n].starting
    ensures i < n && Requests(states[i], labels[i], x)
  {
    assert n > 0 by {
      assert Init(states[0]);
    }
    i := n - 1;
    assert StepAt(states, labels, i);
    StartingStep(states[i], labels[i], states[n], x);
    if x in states[i].starting {
      i := RegistrationWasChecked(states, labels, n - 1, x);
    }
  }

  function SectionCaller(s: State, l: Label): Caller
    requires Enabled(s, l) && IsSection(l)
  {
    if l.RegisterAdd? then s.starting[l.index].caller else s.passed[l.index].caller
  }

  /** Every locked section of a registration, an update or a click follows a check that its process passed. */
  lemma SectionWasChecked(states: seq<State>, labels: seq<Label>, n: nat) returns (i: nat)
    requires IsRun(states, labels) && n < |labels| && IsSection(labels[n])
    ensures Enabled(states[n], labels[n])
    ensures var c := SectionCaller(states[n], labels[n]);
            && i < n && (labels[i].CallCheck? || labels[i].Register?) && CallerOf(labels[i]) == c
            && !Mal.Blocked(states[i].mal, c.pid, c.uid)
  {
    assert StepAt(states, labels, n);
    var (s, l) := (states[n], labels[n]);
    if l.RegisterAdd? {
      i := RegistrationWasChecked(states, labels, n, s.starting[l.index]);
    } else {
      i := CallWasChecked(states, labels, n, s.passed[l.index]);
    }
  }

  // The list over whole runs

  function CountEvents(pid: int, count: FailCount): seq<Mal.Event> {
    match count
    case CountUnchanged => []
    case CountReset => [Mal.WasReset(pid)]
    case CountResetThenAdded => [Mal.WasReset(pid), Mal.Added(pid)]
    case CountAdded => [Mal.Added(pid)]
  }

  function ReportEvents(pid: int, enhanceRes: int): seq<Mal.Event> {
    if enhanceRes != SC_OK then [Mal.Added(pid)] else [Mal.WasReset(pid)]
  }

  /** What a step does to the list and the failure counts. */
  function MalEvents(s: State, l: Label): seq<Mal.Event>
    requires Enabled(s, l)
  {
    match l
    case Register(c, r) =>
      if Mal.Blocked(s.mal, c.pid, c.uid) || r.report.None? then [] else ReportEvents(c.pid, r.enhanceRes)
    case Update(k) =>
      var UpdateCall(scId, c, r) := s.passed[k];
      if !HasComponent(s.procs, c.pid, scId) || scId !in s.ents || r.report.None? then []
      else ReportEvents(c.pid, r.enhanceRes)
    case Click(k) =>
      var ClickCall(scId, c, input) := s.passed[k];
      if !HasComponent(s.procs, c.pid, scId) || scId !in s.ents then []
      else CountEvents(c.pid, CountFor(s.ents[scId], input, s.foldOffset))
    case Died(pid, cached) => if cached then [] else [Mal.Removed(pid)]
    case _ => []
  }

  function Applied(m: Mal.MalState, events: seq<Mal.Event>): Mal.MalState {
    if events == [] then m else Mal.Apply(Applied(m, events[..|events| - 1]), events[|events| - 1])
  }

  lemma AppliedTwo(m: Mal.MalState, a: Mal.Event, b: Mal.Event)
    ensures Applied(m, [a]) == Mal.Apply(m, a) && Applied(m, [a, b]) == Mal.Apply(Mal.Apply(m, a), b)
  {
    assert [a, b][..1] == [a];
  }

  lemma {:induction false} AppliedAfter(log: seq<Mal.Event>, events: seq<Mal.Event>)
    ensures Applied(Mal.After(log), events) == Mal.After(log + events)
  {
    if events == [] {
      assert log + events == log;
    } else {
      var n := |events| - 1;
      AppliedAfter(log, events[..n]);
      assert (log + events)[..|log| + n] == log + events[..n];
    }
  }

  lemma ReportMal(m: Mal.MalState, pid: int, enhanceRes: int)
    ensures Applied(m, ReportEvents(pid, enhanceRes)) == if enhanceRes != SC_OK then Mal.Add(m, pid)
            else Mal.Reset(m, pid)
  {
    AppliedTwo(m, Mal.Added(pid), Mal.Added(pid));
    AppliedTwo(m, Mal.WasReset(pid), Mal.Added(pid));
  }

  lemma CountMal(m: Mal.MalState, pid: int, count: FailCount)
    ensures Applied(m, CountEvents(pid, count)) == MalAfter(m, pid, count)
  {
    AppliedTwo(m, Mal.Added(pid), Mal.Added(pid));
    AppliedTwo(m, Mal.WasReset(pid), Mal.Added(pid));
  }

  lemma MalStep(s: State, l: Label, s': State)
    requires Step(s, l, s')
    ensures s'.mal == Applied(s.mal, MalEvents(s, l))
  {
    if l.Register? {
      ReportMal(s.mal, l.caller.pid, l.report.enhanceRes);
    } else if l.Update? {
      ReportMal(s.mal, s.passed[l.index].caller.pid, s.passed[l.index].report.enhanceRes);
    } else if l.Click? {
      var ClickCall(scId, c, input) := s.passed[l.index];
      if scId in s.ents {
        ClickCounts(s.ents[scId], input, s.foldOffset);
        CountMal(s.mal, c.pid, CountFor(s.ents[scId], input, s.foldOffset));
      }
    } else if l.Died? {
      AppliedTwo(s.mal, Mal.Removed(l.pid), Mal.Removed(l.pid));
    } else {
      OtherMal(s, l, s');
    }
  }

  lemma OtherMal(s: State, l: Label, s': State)
    requires Step(s, l, s') && !l.Register? && !l.Update? && !l.Click? && !l.Died?
    ensures s'.mal == s.mal
  {
    if IsProcessEvent(l) {
      ProcessMal(s, l);
    } else if IsDialogStep(l) {
      DialogMal(s, l);
    } else if !IsCall(l) {
      OtherFrame(s, l);
    }
  }

  lemma ProcessMal(s: State, l: Label)
    requires Enabled(s, l) && IsProcessEvent(l) && !l.Died?
    ensures Exec(s, l).mal == s.mal
  {
  }

  predicate SameCalls(s: State, s': State) {
    s'.mal == s.mal && s'.passed == s.passed && s'.starting == s.starting
  }

  lemma NotifyMal(s: State, a: DialogAnswer)
    requires Enabled(s, ClickNotify(a))
    ensures SameCalls(s, DoNotify(s, a))
  {
  }

  lemma GrantMal(s: State, l: Label)
    requires Enabled(s, l) && (l.ClickGrant? || l.DialogGrant?)
    ensures SameCalls(s, Exec(s, l))
  {
  }

  /** Dialog steps touch neither the list nor what waits for the component lock. */
  lemma DialogMal(s: State, l: Label)
    requires Enabled(s, l) && IsDialogStep(l)
    ensures SameCalls(s, Exec(s, l))
  {
    if l.ClickNotify? {
      NotifyMal(s, l.dialogAnswer);
    } else if l.ClickGrant? || l.DialogGrant? {
      GrantMal(s, l);
    }
  }

  /** Everything that happened to the list up to state `n`. */
  ghost function MalHistory(states: seq<State>, labels: seq<Label>, n: nat): seq<Mal.Event>
    requires IsRun(states, labels) && n < |states|
  {
    if n == 0 then []
    else
      assert StepAt(states, labels, n - 1);
      MalHistory(states, labels, n - 1) + MalEvents(states[n - 1], labels[n - 1])
  }

  lemma HistoryGrows(s: State, l: Label, s': State, history: seq<Mal.Event>)
    requires Step(s, l, s') && s.mal == Mal.After(history)
    ensures s'.mal == Mal.After(history + MalEvents(s, l))
  {
    MalStep(s, l, s');
    AppliedAfter(history, MalEvents(s, l));
  }

  lemma {:induction false} ListIsItsHistory(states: seq<State>, labels: seq<Label>, n: nat)
    requires IsRun(states, labels) && n < |states|
    ensures states[n].mal == Mal.After(MalHistory(states, labels, n))
  {
    if n > 0 {
      ListIsItsHistory(states, labels, n - 1);
      assert StepAt(states, labels, n - 1);
      HistoryGrows(states[n - 1], labels[n - 1], states[n], MalHistory(states, labels, n - 1));
    }
  }

  /** In every reachable state a process is listed exactly when it failed four times in a row since it last died. */
  lemma ListedAfterFourFailures(states: seq<State>, labels: seq<Label>, n: nat, pid: int)
    requires IsRun(states, labels) && n < |states|
    ensures pid in states[n].mal.listed
       <==> exists d: nat :: Mal.FourthFailure(MalHistory(states, labels, n), pid, d)
  {
    ListIsItsHistory(states, labels, n);
    Mal.ListedMeaning(MalHistory(states, labels, n), pid);
  }

  // Once a process is listed

  lemma {:induction false} AppliedKeepsListed(m: Mal.MalState, events: seq<Mal.Event>, pid: int)
    requires pid in m.listed && Mal.Removed(pid) !in events
    ensures pid in Applied(m, events).listed
  {
    if events != [] {
      AppliedKeepsListed(m, events[..|events| - 1], pid);
      assert events[|events| - 1] in events;
    }
  }

  lemma {:induction false} ListedUntilDeath(states: seq<State>, labels: seq<Label>, m: nat, n: nat, pid: int)
    requires IsRun(states, labels) && m <= n < |states|
    requires pid in states[m].mal.listed && forall i :: m <= i < n ==> labels[i] != Died(pid, false)
    ensures pid in states[n].mal.listed
  {
    if m < n {
      ListedUntilDeath(states, labels, m, n - 1, pid);
      assert StepAt(states, labels, n - 1);
      MalStep(states[n - 1], labels[n - 1], states[n]);
      AppliedKeepsListed(states[n - 1].mal, MalEvents(states[n - 1], labels[n - 1]), pid);
    }
  }

  /**
   A process that is not root's is listed at state `m` for the first time since it was
   unlisted at `i`, and has not died since. Its call or registration whose check runs at
   step `i`, with everything else in order, changes nothing exactly when the check comes
   after the listing.
   */
  lemma ListedCallsChangeNothing(states: seq<State>, labels: seq<Label>, m: nat, i: nat)
    requires IsRun(states, labels) && m < |states| && i < |labels| && ReachesList(labels[i])
    requires CallerOf(labels[i]).uid != Mal.ROOT_UID
    requires var pid := CallerOf(labels[i]).pid;
             && pid in states[m].mal.listed && (forall j :: m <= j < i ==> labels[j] != Died(pid, false))
             && (i < m ==> pid !in states[i].mal.listed)
    ensures states[i + 1] == states[i] <==> m <= i
  {
    assert StepAt(states, labels, i);
    CheckStopsBlocked(states[i], labels[i], states[i + 1]);
    if m <= i {
      ListedUntilDeath(states, labels, m, i, CallerOf(labels[i]).pid);
    }
  }

  /**
   The locked section of a listed process's call that still runs was checked before the
   process was listed. It then does exactly what it would have done with an empty list.
   */
  lemma ListedSectionsAreOlder(states: seq<State>, labels: seq<Label>, m: nat, n: nat) returns (i: nat)
    requires IsRun(states, labels) && m <= n < |labels| && IsSection(labels[n]) && Enabled(states[n], labels[n])
    requires var c := SectionCaller(states[n], labels[n]);
             && c.uid != Mal.ROOT_UID && c.pid in states[m].mal.listed
             && forall j :: m <= j < n ==> labels[j] != Died(c.pid, false)
    ensures var c := SectionCaller(states[n], labels[n]);
            i < m && (labels[i].CallCheck? || labels[i].Register?) && CallerOf(labels[i]) == c &&
              c.pid !in states[i].mal.listed
    ensures var free := states[n].(mal := Mal.MalState(map[], {}));
            Enabled(free, labels[n]) && states[n + 1] == Exec(free, labels[n]).(mal := states[n + 1].mal)
  {
    i := SectionWasChecked(states, labels, n);
    assert StepAt(states, labels, n);
    SectionsIgnoreList(states[n], labels[n], Mal.MalState(map[], {}));
    var pid := SectionCaller(states[n], labels[n]).pid;
    if m <= i {
      ListedUntilDeath(states, labels, m, i, pid);
    }
  }
}
