/**
 The register of processes and their components: which component ids are live,
 how the next id is found, and how the lists per process stand for one flat map.
 */
module Registry {
  import opened Types

  const SC_ID_START := 1000
  const MAX_INT_NUM := 0x7fffffff
  const ID_RANGE := MAX_INT_NUM - SC_ID_START + 1
  const MAX_SINGLE_PROC_COMP_SIZE := 500

  /** One process; components are named by their ids. */
  datatype Proc = Proc(comps: seq<int>, foreground: bool, token: TokenId)

  type Procs = map<int, Proc>

  function LiveIds(procs: Procs): set<int> {
    set pid, id | pid in procs && id in procs[pid].comps :: id
  }

  predicate AnyComponent(procs: Procs) {
    exists pid :: pid in procs && procs[pid].comps != []
  }

  // Component ids

  predicate IdInRange(id: int) {
    SC_ID_START <= id <= MAX_INT_NUM
  }

  function NextId(id: int): int {
    if id == MAX_INT_NUM then SC_ID_START else id + 1
  }

  /** The id `k` places after `id`, going round. */
  function NthId(id: int, k: nat): int {
    SC_ID_START + (id - SC_ID_START + k) % ID_RANGE
  }

  lemma NthIsNext(id: int, k: nat)
    requires IdInRange(id)
    ensures NthId(id, 0) == id && NthId(id, 1) == NextId(id) && IdInRange(NthId(id, k))
    ensures NthId(NextId(id), k) == NthId(id, k + 1)
  {
  }

  lemma NthNext(id: int, k: nat)
    requires IdInRange(id)
    ensures NextId(NthId(id, k)) == NthId(id, k + 1)
  {
  }

  lemma NthDistinct(id: int, j: nat, k: nat)
    requires IdInRange(id) && j < k && k - j < ID_RANGE
    ensures NthId(id, j) != NthId(id, k)
  {
  }

  /** Walk on from `cur` until an id is not live. Every id passed is live, so there are at most |live| + 1 rounds. */
  function FirstFree(cur: int, live: set<int>): int
    decreases |live|
  {
    if NextId(cur) in live then FirstFree(NextId(cur), live - {NextId(cur)}) else NextId(cur)
  }

  /** The first free id in cyclic order after `cur`, found within |live| + 1 rounds. */
  lemma {:induction false} FirstFreeMeaning(cur: int, live: set<int>) returns (k: nat)
    requires IdInRange(cur) && |live| < ID_RANGE
    ensures 1 <= k <= |live| + 1
    ensures FirstFree(cur, live) == 1000 + (cur - 1000 + k) % 2147482648
    ensures FirstFree(cur, live) == NthId(cur, k) && IdInRange(NthId(cur, k)) && NthId(cur, k) !in live
    ensures forall j :: 1 <= j < k ==> NthId(cur, j) in live
    decreases |live|
  {
    var next := NextId(cur);
    NthIsNext(cur, 0);
    if next in live {
      var k' := FirstFreeMeaning(next, live - {next});
      k := k' + 1;
      NthIsNext(cur, k');
      NthIsNext(cur, k);
      NthDistinct(cur, 1, k);
      forall j | 1 <= j < k ensures NthId(cur, j) in live {
        if j > 1 {
          NthIsNext(cur, j - 1);
          assert NthId(next, j - 1) in live - {next};
        }
      }
    } else {
      k := 1;
      NthIsNext(cur, 1);
    }
  }

  // Lists per process

  function RemoveFirst(s: seq<int>, id: int): seq<int> {
    if s == [] then []
    else if s[0] == id then s[1..]
    else [s[0]] + RemoveFirst(s[1..], id)
  }

  function AddComponent(procs: Procs, saExit: bool, pid: int, token: TokenId, id: int): (r: (Procs, int)) {
    if saExit then (procs, SC_SERVICE_ERROR_SERVICE_NOT_EXIST)
    else if pid in procs then
      if |procs[pid].comps| > MAX_SINGLE_PROC_COMP_SIZE then (procs, SC_SERVICE_ERROR_VALUE_INVALID)
      else (procs[pid := procs[pid].(comps := procs[pid].comps + [id], foreground := true)], SC_OK)
    else (procs[pid := Proc([id], true, token)], SC_OK)
  }

  function DeleteComponent(procs: Procs, pid: int, id: int): (r: (Procs, int)) {
    if pid in procs && id in procs[pid].comps then
      (procs[pid := procs[pid].(comps := RemoveFirst(procs[pid].comps, id))], SC_OK)
    else (procs, SC_SERVICE_ERROR_COMPONENT_NOT_EXIST)
  }

  predicate HasComponent(procs: Procs, pid: int, id: int) {
    pid in procs && id in procs[pid].comps
  }

  predicate NoRepeats(s: seq<int>) {
    forall i, j :: 0 <= i < j < |s| ==> s[i] != s[j]
  }

  /** Ids are distinct within and across processes, in range, and the lists are bounded. */
  ghost predicate RegistryInv(procs: Procs) {
    && (forall pid :: pid in procs ==>
         NoRepeats(procs[pid].comps) && |procs[pid].comps| <= MAX_SINGLE_PROC_COMP_SIZE + 1)
    && (forall p, q, id :: HasComponent(procs, p, id) && HasComponent(procs, q, id) ==> p == q)
    && (forall pid, id :: HasComponent(procs, pid, id) ==> IdInRange(id))
  }

  ghost function OwnerOf(procs: Procs, id: int): (pid: int)
    requires id in LiveIds(procs)
    ensures HasComponent(procs, pid, id)
  {
    var pid :| pid in procs && id in procs[pid].comps;
    pid
  }

  /** The register read as one map from component id to process. */
  ghost function Flat(procs: Procs): map<int, int> {
    map id | id in LiveIds(procs) :: OwnerOf(procs, id)
  }

  lemma FlatHolds(procs: Procs, pid: int, id: int)
    requires RegistryInv(procs)
    ensures HasComponent(procs, pid, id) <==> id in Flat(procs) && Flat(procs)[id] == pid
  {
  }

  /** The flat map is determined by which component belongs to which process. */
  lemma FlatIs(procs: Procs, m: map<int, int>)
    requires RegistryInv(procs)
    requires forall pid, id :: HasComponent(procs, pid, id) <==> id in m && m[id] == pid
    ensures Flat(procs) == m
  {
    forall id ensures id in Flat(procs) <==> id in m {
      if id in Flat(procs) {
        assert HasComponent(procs, OwnerOf(procs, id), id);
      }
      if id in m {
        assert HasComponent(procs, m[id], id);
      }
    }
    forall id | id in m ensures Flat(procs)[id] == m[id] {
      assert HasComponent(procs, OwnerOf(procs, id), id);
    }
  }

  lemma {:induction false} RemoveFirstMembers(s: seq<int>, id: int)
    requires NoRepeats(s)
    ensures NoRepeats(RemoveFirst(s, id)) && |RemoveFirst(s, id)| <= |s|
    ensures forall x :: x in RemoveFirst(s, id) <==> x in s && x != id
  {
    if s != [] {
      assert s == [s[0]] + s[1..];
      assert forall i :: 0 <= i < |s| - 1 ==> s[1..][i] == s[i + 1];
      assert s[0] !in s[1..];
      if s[0] != id {
        RemoveFirstMembers(s[1..], id);
      }
    }
  }

  lemma AddHolds(procs: Procs, saExit: bool, pid: int, token: TokenId, id: int, p: int, x: int)
    requires AddComponent(procs, saExit, pid, token, id).1 == SC_OK
    ensures var procs' := AddComponent(procs, saExit, pid, token, id).0;
            HasComponent(procs', p, x) <==> HasComponent(procs, p, x) || (p == pid && x == id)
  {
  }

  /** Adding a fresh id is an insertion into the flat map; otherwise nothing changes. */
  lemma AddRefinesFlat(procs: Procs, saExit: bool, pid: int, token: TokenId, id: int)
    requires RegistryInv(procs) && id !in LiveIds(procs) && IdInRange(id)
    ensures var (procs', res) := AddComponent(procs, saExit, pid, token, id);
            && RegistryInv(procs')
            && Flat(procs') == (if res == SC_OK then Flat(procs)[id := pid] else Flat(procs))
            && (res == SC_OK <==> !saExit && !(pid in procs && |procs[pid].comps| == 501))
            && (res != SC_OK ==> procs' == procs)
            && (res == SC_OK ==>
                  && pid in procs' && procs' == procs[pid := procs'[pid]] && procs'[pid].foreground
                  && procs'[pid].token == (if pid in procs then procs[pid].token else token))
  {
    var (procs', res) := AddComponent(procs, saExit, pid, token, id);
    if res == SC_OK {
      forall p, x ensures HasComponent(procs', p, x) <==> HasComponent(procs, p, x) || (p == pid && x == id) {
        AddHolds(procs, saExit, pid, token, id, p, x);
      }
      forall p ensures !HasComponent(procs, p, id) {
      }
      forall p, x ensures HasComponent(procs', p, x) <==>
        x in Flat(procs)[id := pid] && Flat(procs)[id := pid][x] == p {
        FlatHolds(procs, p, x);
      }
      assert NoRepeats(procs'[pid].comps) by {
        assert !HasComponent(procs, pid, id);
      }
      FlatIs(procs', Flat(procs)[id := pid]);
    }
  }

  lemma DeleteHolds(procs: Procs, pid: int, id: int, p: int, x: int)
    requires RegistryInv(procs)
    ensures var procs' := DeleteComponent(procs, pid, id).0;
            HasComponent(procs', p, x) <==> HasComponent(procs, p, x) && !(p == pid && x == id)
  {
    if HasComponent(procs, pid, id) {
      RemoveFirstMembers(procs[pid].comps, id);
    }
  }

  /** Deleting succeeds exactly for the owner of the id, and is then a removal from the flat map. */
  lemma DeleteRefinesFlat(procs: Procs, pid: int, id: int)
    requires RegistryInv(procs)
    ensures var (procs', res) := DeleteComponent(procs, pid, id);
            && RegistryInv(procs')
            && (res == SC_OK <==> id in Flat(procs) && Flat(procs)[id] == pid)
            && Flat(procs') == (if res == SC_OK then Flat(procs) - {id} else Flat(procs))
            && (res != SC_OK ==> procs' == procs)
            && (res == SC_OK ==>
                  pid in procs && pid in procs' && procs' == procs[pid := procs[pid].(comps := procs'[pid].comps)])
  {
    var (procs', res) := DeleteComponent(procs, pid, id);
    FlatHolds(procs, pid, id);
    forall p, x ensures HasComponent(procs', p, x) <==> HasComponent(procs, p, x) && !(p == pid && x == id) {
      DeleteHolds(procs, pid, id, p, x);
    }
    if res == SC_OK {
      RemoveFirstMembers(procs[pid].comps, id);
      forall p, x ensures HasComponent(procs', p, x) <==> x in Flat(procs) - {id} && (Flat(procs) - {id})[x] == p {
        FlatHolds(procs, p, x);
      }
      FlatIs(procs', Flat(procs) - {id});
    }
  }
}
