/**
 The event handler: an ordered collection of named delayed tasks. A task is
 removed by name only, whoever posted it; tasks with equal delay come due in the
 order in which they were posted.
 */
module EventHandler {
  import opened Types

  const DELAY_REVOKE := 10 * 1000
  const DELAY_SAVE_REVOKE := 60 * 1000
  const DELAY_EXIT := 120 * 1000

  /** What the function posted with a task does when it runs. */
  datatype Callback =
    | RevokeSaveCount(token: TokenId)
    | RevokeAll(token: TokenId)
    | ExitSa
    | SaveRecord

  datatype Task = Task(name: string, delay: nat, callback: Callback)

  /** The tasks whose name is not among `names`, in their old order. */
  function Without(q: seq<Task>, names: set<string>): seq<Task> {
    if q == [] then []
    else
      var rest := Without(q[1..], names);
      if q[0].name in names then rest else [q[0]] + rest
  }

  function RemoveAt(q: seq<Task>, k: nat): seq<Task>
    requires k < |q|
  {
    q[..k] + q[k + 1..]
  }

  /** Task `k` may be the next to run: no task posted before it has the same delay. */
  predicate CanFire(q: seq<Task>, k: nat) {
    k < |q| && forall j :: 0 <= j < k ==> q[j].delay != q[k].delay
  }

  /** Names of the pending save-revoke tasks of one token, in firing order. */
  function SaveNames(q: seq<Task>, token: TokenId): seq<string> {
    if q == [] then []
    else
      var rest := SaveNames(q[1..], token);
      if q[0].callback == RevokeSaveCount(token) then [q[0].name] + rest else rest
  }

  function Names(s: seq<string>, gone: set<string>): seq<string> {
    if s == [] then []
    else
      var rest := Names(s[1..], gone);
      if s[0] in gone then rest else [s[0]] + rest
  }

  lemma {:induction false} WithoutMember(q: seq<Task>, names: set<string>, t: Task)
    ensures t in Without(q, names) <==> t in q && t.name !in names
  {
    if q != [] {
      WithoutMember(q[1..], names, t);
      assert q == [q[0]] + q[1..];
    }
  }

  lemma {:induction false} WithoutTwice(q: seq<Task>, m: set<string>, n: set<string>)
    ensures Without(Without(q, m), n) == Without(q, m + n)
  {
    if q != [] {
      WithoutTwice(q[1..], m, n);
      if q[0].name !in m {
        assert Without(q, m)[1..] == Without(q[1..], m);
      }
    }
  }

  lemma {:induction false} WithoutNone(q: seq<Task>, names: set<string>)
    requires forall t :: t in q ==> t.name !in names
    ensures Without(q, names) == q
  {
    if q != [] {
      assert q[0] in q;
      assert forall t :: t in q[1..] ==> t in q;
      WithoutNone(q[1..], names);
    }
  }

  /** A save name comes from a pending task. */
  lemma {:induction false} TaskOfSaveName(q: seq<Task>, token: TokenId, n: string) returns (k: nat)
    requires n in SaveNames(q, token)
    ensures k < |q| && q[k].name == n && q[k].callback == RevokeSaveCount(token)
  {
    if q[0].callback == RevokeSaveCount(token) && q[0].name == n {
      k := 0;
    } else {
      k := TaskOfSaveName(q[1..], token, n);
      k := k + 1;
    }
  }

  lemma {:induction false} SaveNamesConcat(a: seq<Task>, b: seq<Task>, token: TokenId)
    ensures SaveNames(a + b, token) == SaveNames(a, token) + SaveNames(b, token)
  {
    if a == [] {
      assert a + b == b;
    } else {
      SaveNamesConcat(a[1..], b, token);
      assert (a + b)[1..] == a[1..] + b;
    }
  }

  lemma {:induction false} SaveNamesWithout(q: seq<Task>, names: set<string>, token: TokenId)
    ensures SaveNames(Without(q, names), token) == Names(SaveNames(q, token), names)
  {
    if q != [] {
      SaveNamesWithout(q[1..], names, token);
      if q[0].name !in names {
        assert Without(q, names)[1..] == Without(q[1..], names);
      }
      if q[0].callback == RevokeSaveCount(token) {
        assert SaveNames(q, token)[1..] == SaveNames(q[1..], token);
      }
    }
  }

  lemma {:induction false} NamesKept(s: seq<string>, gone: set<string>)
    requires forall n :: n in s ==> n !in gone
    ensures Names(s, gone) == s
  {
    if s != [] {
      assert s[0] in s;
      assert forall n :: n in s[1..] ==> n in s;
      NamesKept(s[1..], gone);
    }
  }

  lemma {:induction false} NamesGone(s: seq<string>, gone: set<string>)
    requires forall n :: n in s ==> n in gone
    ensures Names(s, gone) == []
  {
    if s != [] {
      assert s[0] in s;
      assert forall n :: n in s[1..] ==> n in s;
      NamesGone(s[1..], gone);
    }
  }

  lemma {:induction false} NamesConcat(a: seq<string>, b: seq<string>, gone: set<string>)
    ensures Names(a + b, gone) == Names(a, gone) + Names(b, gone)
  {
    if a == [] {
      assert a + b == b;
    } else {
      NamesConcat(a[1..], b, gone);
      assert (a + b)[1..] == a[1..] + b;
    }
  }

  /** The C++ SecEventHandler on one event runner. */
  class SecEventHandler {
    var tasks: seq<Task>

    constructor ()
      ensures tasks == []
    {
      tasks := [];
    }

    method ProxyPostTask(callback: Callback, name: string, delay: nat)
      modifies this
      ensures tasks == old(tasks) + [Task(name, delay, callback)]
    {
      tasks := tasks + [Task(name, delay, callback)];
    }

    method ProxyRemoveTask(name: string)
      modifies this
      ensures tasks == Without(old(tasks), {name})
    {
      tasks := Without(tasks, {name});
    }
  }
}
