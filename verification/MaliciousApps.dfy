/** Processes that keep failing the enhanced checks, counted and blocked. */
module MaliciousApps {
  import opened Types

  const ROOT_UID := 0
  const MAX_CONTINUOUS_ENHANCE_FAIL_COUNT := 3

  datatype MalState = MalState(failCount: map<int, nat>, listed: set<int>)

  function CountOf(s: MalState, pid: int): nat {
    if pid in s.failCount then s.failCount[pid] else 0
  }

  predicate Blocked(s: MalState, pid: int, uid: int) {
    uid != ROOT_UID && pid in s.listed
  }

  function Add(s: MalState, pid: int): MalState {
    var n := (CountOf(s, pid) + 1) % UINT32_RANGE;
    MalState(s.failCount[pid := n], if n > MAX_CONTINUOUS_ENHANCE_FAIL_COUNT then s.listed + {pid} else s.listed)
  }

  function Remove(s: MalState, pid: int): MalState {
    MalState(s.failCount - {pid}, s.listed - {pid})
  }

  function Reset(s: MalState, pid: int): MalState {
    s.(failCount := s.failCount - {pid})
  }

  datatype Event = Added(pid: int) | Removed(pid: int) | WasReset(pid: int)

  function Apply(s: MalState, e: Event): MalState {
    match e
    case Added(pid) => Add(s, pid)
    case Removed(pid) => Remove(s, pid)
    case WasReset(pid) => Reset(s, pid)
  }

  function After(log: seq<Event>): MalState {
    if log == [] then MalState(map[], {})
    else
      Apply(After(log[..|log| - 1]), log[|log| - 1])
  }

  /** How many failures of `pid` the log ends with, not counting other processes. */
  function Streak(log: seq<Event>, pid: int): nat {
    if log == [] then 0
    else
      var last := log[|log| - 1];
      if last == Added(pid) then Streak(log[..|log| - 1], pid) + 1
      else if last == Removed(pid) || last == WasReset(pid) then 0
      else Streak(log[..|log| - 1], pid)
  }

  lemma {:induction false} CountIsStreak(log: seq<Event>, pid: int)
    ensures CountOf(After(log), pid) == Streak(log, pid) % UINT32_RANGE
  {
    if log != [] {
      CountIsStreak(log[..|log| - 1], pid);
    }
  }

  /** The fourth failure in a row at `d`, and the process has not died since. */
  predicate FourthFailure(log: seq<Event>, pid: int, d: nat) {
    && d < |log| && log[d] == Added(pid) && Streak(log[..d + 1], pid) == 4
    && forall j :: d < j < |log| ==> log[j] != Removed(pid)
  }

  /** A longer streak of failures contains its fourth one. */
  lemma {:induction false} FourthOfStreak(log: seq<Event>, pid: int) returns (d: nat)
    requires Streak(log, pid) >= 4
    ensures FourthFailure(log, pid, d)
  {
    var n := |log| - 1;
    if log[n] == Added(pid) && Streak(log, pid) == 4 {
      assert log[..n + 1] == log;
      d := n;
    } else {
      d := FourthOfStreak(log[..n], pid);
      assert log[..n][..d + 1] == log[..d + 1];
      assert forall j :: d < j < n ==> log[j] == log[..n][j];
    }
  }

  /** A fourth failure stays one as long as the process does not die. */
  lemma FourthStays(log: seq<Event>, pid: int, d: nat)
    requires log != [] && d < |log| - 1
    ensures FourthFailure(log, pid, d)
       <==> FourthFailure(log[..|log| - 1], pid, d) && log[|log| - 1] != Removed(pid)
  {
    var before := log[..|log| - 1];
    assert before[..d + 1] == log[..d + 1];
    assert forall j :: d <= j < |before| ==> log[j] == before[j];
  }

  lemma FourthIsLast(log: seq<Event>, pid: int)
    requires log != []
    ensures FourthFailure(log, pid, |log| - 1) ==> Streak(log, pid) == 4 && log[|log| - 1] == Added(pid)
  {
    assert log[..|log|] == log;
  }

  lemma LastEvent(log: seq<Event>, pid: int)
    requires log != []
    ensures var (before, last) := (log[..|log| - 1], log[|log| - 1]);
            pid in After(log).listed <==>
              || (pid in After(before).listed && last != Removed(pid))
              || (last == Added(pid) && CountOf(After(log), pid) > MAX_CONTINUOUS_ENHANCE_FAIL_COUNT)
  {
  }

  /**
   A process is listed exactly when, since it last died, it failed four times in
   a row. A reset ends a row but never takes a process off the list.
   */
  lemma {:induction false} ListedMeaning(log: seq<Event>, pid: int)
    ensures pid in After(log).listed <==> exists d: nat :: FourthFailure(log, pid, d)
  {
    if log != [] {
      var n := |log| - 1;
      ListedMeaning(log[..n], pid);
      LastEvent(log, pid);
      CountIsStreak(log, pid);
      FourthIsLast(log, pid);
      if pid in After(log).listed {
        if pid in After(log[..n]).listed && log[n] != Removed(pid) {
          var d: nat :| FourthFailure(log[..n], pid, d);
          FourthStays(log, pid, d);
        } else {
          var d := FourthOfStreak(log, pid);
        }
      }
      if d: nat :| FourthFailure(log, pid, d) {
        if d < n {
          FourthStays(log, pid, d);
        }
      }
    }
  }

  class SecCompMaliciousApps {
    var maliciousFailCountMap: map<int, nat>
    var maliciousAppList: set<int>

    constructor ()
      ensures View() == MalState(map[], {})
    {
      maliciousFailCountMap, maliciousAppList := map[], {};
    }

    ghost function View(): MalState
      reads this
    {
      MalState(maliciousFailCountMap, maliciousAppList)
    }

    method IsInMaliciousAppList(pid: int, uid: int) returns (r: bool)
      ensures r == Blocked(View(), pid, uid)
    {
      if uid == ROOT_UID {
        return false;
      }
      r := pid in maliciousAppList;
    }

    method AddAppToMaliciousAppList(pid: int)
      modifies this
      ensures View() == Add(old(View()), pid)
    {
      var failCount := if pid in maliciousFailCountMap then maliciousFailCountMap[pid] else 0;
      failCount := (failCount + 1) % UINT32_RANGE;
      maliciousFailCountMap := maliciousFailCountMap[pid := failCount];
      if failCount > MAX_CONTINUOUS_ENHANCE_FAIL_COUNT {
        maliciousAppList := maliciousAppList + {pid};
      }
    }

    method RemoveAppFromMaliciousAppList(pid: int)
      modifies this
      ensures View() == Remove(old(View()), pid)
    {
      maliciousAppList := maliciousAppList - {pid};
      maliciousFailCountMap := maliciousFailCountMap - {pid};
    }

    method ResetAppMaliciousFailCount(pid: int)
      modifies this
      ensures View() == Reset(old(View()), pid)
    {
      maliciousFailCountMap := maliciousFailCountMap - {pid};
    }
  }
}
