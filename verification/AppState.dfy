/**
 Which processes are in the foreground, as the application manager's notices tell.
 A process whose id is not known yet is kept as a placeholder for its user id.
 */
module AppState {
  import opened Types

  const UNKNOWN_PID := -1

  datatype ProcessData = ProcessData(pid: int, uid: int)

  datatype Notice =
    | ToForeground(process: ProcessData)
    | ToBackground(pid: int)
    | Gone(pid: int)

  function PidOf(n: Notice): int {
    match n
    case ToForeground(p) => p.pid
    case ToBackground(pid) => pid
    case Gone(pid) => pid
  }

  predicate AlreadyIn(list: seq<ProcessData>, p: ProcessData) {
    exists i :: 0 <= i < |list| && if p.pid == UNKNOWN_PID then list[i].uid == p.uid else list[i].pid == p.pid
  }

  function AddProcess(list: seq<ProcessData>, p: ProcessData): seq<ProcessData> {
    if AlreadyIn(list, p) then list else list + [p]
  }

  function RemoveProcess(list: seq<ProcessData>, pid: int): seq<ProcessData> {
    if list == [] then []
    else if list[0].pid == pid then list[1..]
    else [list[0]] + RemoveProcess(list[1..], pid)
  }

  /** Asking may give a placeholder of the same user the asking process's id. */
  function Claim(list: seq<ProcessData>, pid: int, uid: int): (r: (bool, seq<ProcessData>)) {
    if list == [] then (false, [])
    else if list[0].pid == pid then (true, list)
    else if list[0].pid == UNKNOWN_PID && list[0].uid == uid then (true, [list[0].(pid := pid)] + list[1..])
    else
      var (found, rest) := Claim(list[1..], pid, uid);
      (found, [list[0]] + rest)
  }

  function Hear(list: seq<ProcessData>, n: Notice): seq<ProcessData> {
    match n
    case ToForeground(p) => AddProcess(list, p)
    case ToBackground(pid) => RemoveProcess(list, pid)
    case Gone(pid) => RemoveProcess(list, pid)
  }

  /** The list after a history of notices, from an empty list. */
  function After(log: seq<Notice>): seq<ProcessData> {
    if log == [] then [] else Hear(After(log[..|log| - 1]), log[|log| - 1])
  }

  /** The last notice about a process put it in the foreground. */
  predicate LastForeground(log: seq<Notice>, pid: int) {
    if log == [] then false
    else
      var n := log[|log| - 1];
      if PidOf(n) == pid then n.ToForeground? else LastForeground(log[..|log| - 1], pid)
  }

  predicate Lists(list: seq<ProcessData>, pid: int) {
    list != [] && (list[0].pid == pid || Lists(list[1..], pid))
  }

  predicate Distinct(list: seq<ProcessData>) {
    list == [] || (!Lists(list[1..], list[0].pid) && Distinct(list[1..]))
  }

  lemma {:induction false} ListsAt(list: seq<ProcessData>, pid: int)
    ensures Lists(list, pid) <==> exists i :: 0 <= i < |list| && list[i].pid == pid
  {
    if list != [] {
      var tail := list[1..];
      ListsAt(tail, pid);
      assert forall i :: 0 <= i < |tail| ==> tail[i] == list[i + 1];
      assert forall i :: 1 <= i < |list| ==> list[i] == tail[i - 1];
    }
  }

  lemma {:induction false} RemoveLists(list: seq<ProcessData>, pid: int, p: int)
    requires Distinct(list)
    ensures Lists(RemoveProcess(list, pid), p) <==> Lists(list, p) && p != pid
    ensures Distinct(RemoveProcess(list, pid))
    decreases |list|
  {
    if list != [] {
      RemoveLists(list[1..], pid, p);
      if list[0].pid != pid {
        RemoveLists(list[1..], pid, list[0].pid);
        assert RemoveProcess(list, pid)[1..] == RemoveProcess(list[1..], pid);
      }
    }
  }

  lemma {:induction false} RemoveIsErase(list: seq<ProcessData>, i: nat)
    requires i < |list| && forall j :: 0 <= j < i ==> list[j].pid != list[i].pid
    ensures RemoveProcess(list, list[i].pid) == list[..i] + list[i + 1..]
    decreases i
  {
    if i > 0 {
      RemoveIsErase(list[1..], i - 1);
      assert [list[0]] + (list[1..][..i - 1] + list[1..][i..]) == list[..i] + list[i + 1..];
    }
  }

  lemma {:induction false} RemoveNothing(list: seq<ProcessData>, pid: int)
    requires forall j :: 0 <= j < |list| ==> list[j].pid != pid
    ensures RemoveProcess(list, pid) == list
  {
    if list != [] {
      RemoveNothing(list[1..], pid);
      assert [list[0]] + list[1..] == list;
    }
  }

  lemma {:induction false} AppendLists(list: seq<ProcessData>, p: ProcessData, pid: int)
    ensures Lists(list + [p], pid) <==> Lists(list, pid) || pid == p.pid
    ensures Distinct(list) && !Lists(list, p.pid) ==> Distinct(list + [p])
    decreases |list|
  {
    if list != [] {
      AppendLists(list[1..], p, pid);
      AppendLists(list[1..], p, list[0].pid);
      assert (list + [p])[1..] == list[1..] + [p];
    }
  }

  lemma {:induction false} ClaimIsMembership(list: seq<ProcessData>, pid: int, uid: int)
    requires !Lists(list, UNKNOWN_PID)
    ensures Claim(list, pid, uid) == (Lists(list, pid), list)
    decreases |list|
  {
    if list != [] {
      ClaimIsMembership(list[1..], pid, uid);
      assert [list[0]] + list[1..] == list;
    }
  }

  ghost predicate NoPlaceholders(log: seq<Notice>) {
    forall i :: 0 <= i < |log| ==> PidOf(log[i]) != UNKNOWN_PID
  }

  lemma {:induction false} ListedIsLastForeground(log: seq<Notice>, pid: int)
    requires NoPlaceholders(log)
    ensures Distinct(After(log)) && (Lists(After(log), pid) <==> LastForeground(log, pid))
    decreases |log|
  {
    if log != [] {
      var n := |log| - 1;
      var before := After(log[..n]);
      ListedIsLastForeground(log[..n], pid);
      assert PidOf(log[n]) != UNKNOWN_PID;
      match log[n] {
        case ToForeground(p) =>
          AddLists(before, p, pid);
        case ToBackground(q) => RemoveLists(before, q, pid);
        case Gone(q) => RemoveLists(before, q, pid);
      }
    }
  }

  lemma AddLists(list: seq<ProcessData>, p: ProcessData, pid: int)
    requires Distinct(list) && p.pid != UNKNOWN_PID
    ensures Distinct(AddProcess(list, p)) && (Lists(AddProcess(list, p), pid) <==> Lists(list, pid) || pid == p.pid)
  {
    ListsAt(list, p.pid);
    AppendLists(list, p, pid);
  }

  lemma {:induction false} UnknownNeverForeground(log: seq<Notice>)
    requires NoPlaceholders(log)
    ensures !LastForeground(log, UNKNOWN_PID)
    decreases |log|
  {
    if log != [] {
      UnknownNeverForeground(log[..|log| - 1]);
      assert PidOf(log[|log| - 1]) != UNKNOWN_PID;
    }
  }

  /** Without placeholders a process is foreground exactly when its last notice said so, and asking changes nothing. */
  lemma ForegroundIsLastNotice(log: seq<Notice>, pid: int, uid: int)
    requires NoPlaceholders(log)
    ensures Claim(After(log), pid, uid) == (LastForeground(log, pid), After(log))
  {
    ListedIsLastForeground(log, pid);
    ListedIsLastForeground(log, UNKNOWN_PID);
    UnknownNeverForeground(log);
    ClaimIsMembership(After(log), pid, uid);
  }

  /**
   A placeholder claimed beside an exact entry lists the process twice, and one background
   notice leaves it foreground.
   */
  lemma ClaimedPlaceholderOutlivesBackground()
    ensures var list := AddProcess(AddProcess([], ProcessData(UNKNOWN_PID, 20)), ProcessData(5, 20));
            var asked := Claim(list, 5, 20).1;
            Claim(RemoveProcess(asked, 5), 5, 20).0
  {
  }

  // Placeholders: when the list tells the last notice

  /** The observer hears notices and is asked about processes. */
  datatype Event = Heard(notice: Notice) | Asked(pid: int, uid: int)

  function Entries(list: seq<ProcessData>, pid: int): nat {
    if list == [] then 0 else (if list[0].pid == pid then 1 else 0) + Entries(list[1..], pid)
  }

  /** Asking about the process meets a placeholder of its user before the process itself. */
  predicate Claims(list: seq<ProcessData>, pid: int, uid: int) {
    && list != [] && list[0].pid != pid
    && ((list[0].pid == UNKNOWN_PID && list[0].uid == uid) || Claims(list[1..], pid, uid))
  }

  function Happens(list: seq<ProcessData>, e: Event): seq<ProcessData> {
    match e
    case Heard(n) => Hear(list, n)
    case Asked(pid, uid) => Claim(list, pid, uid).1
  }

  function AfterEvents(events: seq<Event>): seq<ProcessData> {
    if events == [] then [] else Happens(AfterEvents(events[..|events| - 1]), events[|events| - 1])
  }

  /** The last notice among the events about a process put it in the foreground. */
  predicate LastHeard(events: seq<Event>, pid: int) {
    if events == [] then false
    else
      var e := events[|events| - 1];
      if e.Heard? && PidOf(e.notice) == pid then e.notice.ToForeground?
      else LastHeard(events[..|events| - 1], pid)
  }

  /** Every known process is listed once if its last notice put it in the foreground, and else not at all. */
  ghost predicate Accurate(list: seq<ProcessData>, events: seq<Event>) {
    forall pid :: pid != UNKNOWN_PID ==> Entries(list, pid) == if LastHeard(events, pid) then 1 else 0
  }

  ghost predicate AccurateAt(events: seq<Event>, i: nat)
    requires i <= |events|
  {
    Accurate(AfterEvents(events[..i]), events[..i])
  }

  ghost predicate ClaimsAt(events: seq<Event>, i: nat)
    requires i < |events|
  {
    events[i].Asked? && Claims(AfterEvents(events[..i]), events[i].pid, events[i].uid)
  }

  lemma {:induction false} EntriesAppended(list: seq<ProcessData>, p: ProcessData, pid: int)
    ensures Entries(list + [p], pid) == Entries(list, pid) + if p.pid == pid then 1 else 0
    decreases |list|
  {
    if list == [] {
      assert [] + [p] == [p];
    } else {
      EntriesAppended(list[1..], p, pid);
      assert (list + [p])[1..] == list[1..] + [p];
    }
  }

  lemma {:induction false} NoEntries(list: seq<ProcessData>, pid: int)
    ensures Entries(list, pid) == 0 <==> forall i :: 0 <= i < |list| ==> list[i].pid != pid
  {
    if list != [] {
      var tail := list[1..];
      NoEntries(tail, pid);
      assert forall i :: 1 <= i < |list| ==> list[i] == tail[i - 1];
      assert forall i :: 0 <= i < |tail| ==> tail[i] == list[i + 1];
    }
  }

  lemma AddedEntries(list: seq<ProcessData>, p: ProcessData, pid: int)
    requires pid != UNKNOWN_PID
    ensures Entries(AddProcess(list, p), pid)
         == if p.pid == pid && Entries(list, pid) == 0 then 1 else Entries(list, pid)
  {
    NoEntries(list, pid);
    EntriesAppended(list, p, pid);
  }

  lemma {:induction false} RemovedEntries(list: seq<ProcessData>, gone: int, pid: int)
    ensures Entries(RemoveProcess(list, gone), pid)
         == if gone == pid && Entries(list, pid) > 0 then Entries(list, pid) - 1 else Entries(list, pid)
  {
    if list != [] && list[0].pid != gone {
      RemovedEntries(list[1..], gone, pid);
      assert RemoveProcess(list, gone)[1..] == RemoveProcess(list[1..], gone);
    }
  }

  /** A claim adds an entry; any other question adds nothing and is answered by the entries. */
  lemma {:induction false} ClaimedEntries(list: seq<ProcessData>, pid: int, uid: int)
    ensures var (found, list') := Claim(list, pid, uid);
            if Claims(list, pid, uid) then found && Entries(list', pid) == Entries(list, pid) + 1
            else list' == list && (found <==> Entries(list, pid) > 0)
  {
    if list != [] {
      ClaimedEntries(list[1..], pid, uid);
      assert [list[0]] + list[1..] == list;
      var list' := Claim(list, pid, uid).1;
      assert list'[1..] == if list[0].pid == pid || (list[0].pid == UNKNOWN_PID && list[0].uid == uid)
                           then list[1..] else Claim(list[1..], pid, uid).1;
    }
  }

  lemma HeardIsAccurate(list: seq<ProcessData>, events: seq<Event>, n: Notice, pid: int)
    requires Accurate(list, events) && pid != UNKNOWN_PID
    ensures Entries(Hear(list, n), pid) == if LastHeard(events + [Heard(n)], pid) then 1 else 0
  {
    assert (events + [Heard(n)])[..|events|] == events;
    assert Entries(list, pid) == if LastHeard(events, pid) then 1 else 0;
    match n {
      case ToForeground(p) => AddedEntries(list, p, pid);
      case ToBackground(q) => RemovedEntries(list, q, pid);
      case Gone(q) => RemovedEntries(list, q, pid);
    }
  }

  lemma AskedIsAccurate(list: seq<ProcessData>, events: seq<Event>, pid: int, uid: int)
    requires Accurate(list, events)
    ensures Accurate(Claim(list, pid, uid).1, events + [Asked(pid, uid)]) <==> !Claims(list, pid, uid)
  {
    var more := events + [Asked(pid, uid)];
    assert more[..|events|] == events;
    ClaimedEntries(list, pid, uid);
    forall p ensures LastHeard(more, p) == LastHeard(events, p) {
    }
    if Claims(list, pid, uid) {
      NeverClaimed(list, uid);
      assert Entries(list, pid) == if LastHeard(events, pid) then 1 else 0;
    }
  }

  lemma {:induction false} NeverClaimed(list: seq<ProcessData>, uid: int)
    ensures !Claims(list, UNKNOWN_PID, uid)
  {
    if list != [] {
      NeverClaimed(list[1..], uid);
    }
  }

  lemma NextIsAccurate(events: seq<Event>, e: Event)
    requires Accurate(AfterEvents(events), events)
    ensures Accurate(Happens(AfterEvents(events), e), events + [e])
       <==> !(e.Asked? && Claims(AfterEvents(events), e.pid, e.uid))
  {
    if e.Asked? {
      AskedIsAccurate(AfterEvents(events), events, e.pid, e.uid);
    } else {
      forall pid | pid != UNKNOWN_PID
        ensures Entries(Hear(AfterEvents(events), e.notice), pid) == if LastHeard(events + [e], pid) then 1 else 0
      {
        HeardIsAccurate(AfterEvents(events), events, e.notice, pid);
      }
    }
  }

  lemma AccurateNext(events: seq<Event>, i: nat)
    requires i < |events| && AccurateAt(events, i)
    ensures AccurateAt(events, i + 1) <==> !ClaimsAt(events, i)
  {
    assert events[..i + 1] == events[..i] + [events[i]];
    assert events[..i + 1][..i] == events[..i];
    NextIsAccurate(events[..i], events[i]);
  }

  /**
   Over every history of notices and questions, placeholders included: the list tells each
   known process's last notice all along exactly when no question claims a placeholder.
   */
  lemma {:induction false} AccurateUnlessClaimed(events: seq<Event>, n: nat)
    requires n <= |events|
    ensures (forall i :: 0 <= i <= n ==> AccurateAt(events, i))
       <==> (forall i :: 0 <= i < n ==> !ClaimsAt(events, i))
  {
    if n == 0 {
      assert events[..0] == [];
    } else {
      AccurateUnlessClaimed(events, n - 1);
      if forall i :: 0 <= i < n ==> AccurateAt(events, i) {
        assert AccurateAt(events, n - 1);
        AccurateNext(events, n - 1);
      }
    }
  }

  /** While that is so, a question is answered by the last notice and changes nothing exactly if it claims nothing. */
  lemma AnswerIsLastNotice(events: seq<Event>, pid: int, uid: int)
    requires Accurate(AfterEvents(events), events) && pid != UNKNOWN_PID
    ensures var list := AfterEvents(events);
            Claim(list, pid, uid) == (LastHeard(events, pid), list) <==> !Claims(list, pid, uid)
  {
    ClaimedEntries(AfterEvents(events), pid, uid);
    assert Entries(AfterEvents(events), pid) == if LastHeard(events, pid) then 1 else 0;
  }

  class AppStateObserver {
    var foregrandProcList: seq<ProcessData>

    constructor ()
      ensures foregrandProcList == []
    {
      foregrandProcList := [];
    }

    method IsProcessForeground(pid: int, uid: int) returns (r: bool)
      modifies this
      ensures (r, foregrandProcList) == Claim(old(foregrandProcList), pid, uid)
    {
      var list := foregrandProcList;
      var i := 0;
      assert list[0..] == list && list[..0] + Claim(list, pid, uid).1 == Claim(list, pid, uid).1;
      while i < |list|
        invariant i <= |list| && foregrandProcList == list
        invariant var (found, rest) := Claim(list[i..], pid, uid);
                  Claim(list, pid, uid) == (found, list[..i] + rest)
      {
        assert list[i..][0] == list[i] && list[i..][1..] == list[i + 1..];
        if list[i].pid == pid {
          assert list[..i] + list[i..] == list;
          return true;
        }
        if list[i].pid == UNKNOWN_PID && list[i].uid == uid {
          foregrandProcList := list[i := list[i].(pid := pid)];
          assert list[i := list[i].(pid := pid)] == list[..i] + ([list[i].(pid := pid)] + list[i + 1..]);
          return true;
        }
        ghost var rest := Claim(list[i + 1..], pid, uid).1;
        assert list[..i] + ([list[i]] + rest) == list[..i + 1] + rest;
        i := i + 1;
      }
      assert list[..i] + [] == list;
      r := false;
    }

    method AddProcessToForegroundSet(data: ProcessData)
      modifies this
      ensures foregrandProcList == AddProcess(old(foregrandProcList), data)
      ensures foregrandProcList == old(foregrandProcList) +
                (if exists p :: p in old(foregrandProcList)
                                && (if data.pid == -1 then p.uid == data.uid else p.pid == data.pid)
                 then [] else [data])
    {
      var list := foregrandProcList;
      for i := 0 to |list|
        invariant foregrandProcList == list
        invariant forall j :: 0 <= j < i ==>
                  if data.pid == UNKNOWN_PID then list[j].uid != data.uid else list[j].pid != data.pid
      {
        if data.pid == UNKNOWN_PID {
          if list[i].uid == data.uid {
            return;
          }
        } else if data.pid == list[i].pid {
          return;
        }
      }
      foregrandProcList := list + [data];
    }

    method RemoveProcessFromForegroundSet(pid: int)
      modifies this
      ensures foregrandProcList == RemoveProcess(old(foregrandProcList), pid)
    {
      var list := foregrandProcList;
      for i := 0 to |list|
        invariant foregrandProcList == list
        invariant forall j :: 0 <= j < i ==> list[j].pid != pid
      {
        if list[i].pid == pid {
          RemoveIsErase(list, i);
          foregrandProcList := list[..i] + list[i + 1..];
          return;
        }
      }
      RemoveNothing(list, pid);
    }
  }
}
