/**
 The component manager as the service runs it: fields updated in place, loops over
 the register, and the other objects called in the source's order. Each method is
 tied to the functions the state machine is built from.
 */
module Manager {
  import opened Types
  import opened TaskNames
  import opened EventHandler
  import opened PermManager
  import opened Entity
  import opened FirstUseDialog
  import opened Registry
  import opened Service
  import opened Calls
  import Mal = MaliciousApps

  /** The ids of a list of components, in order. */
  function Ids(list: seq<SecCompEntity>): seq<int> {
    seq(|list|, i requires 0 <= i < |list| => list[i].scId)
  }

  const INVALID_SC_ID := -1

  datatype ProcessCompInfos = ProcessCompInfos(compList: seq<SecCompEntity>, isForeground: bool, tokenId: TokenId)

  function ProcOf(p: ProcessCompInfos): Proc {
    Proc(Ids(p.compList), p.isForeground, p.tokenId)
  }

  function ProcsOf(m: map<int, ProcessCompInfos>): Procs {
    map pid | pid in m :: ProcOf(m[pid])
  }

  lemma ProcsOfPut(m: map<int, ProcessCompInfos>, pid: int, p: ProcessCompInfos)
    ensures ProcsOf(m[pid := p]) == ProcsOf(m)[pid := ProcOf(p)]
  {
  }

  ghost function ComponentsOf(m: map<int, ProcessCompInfos>): set<SecCompEntity> {
    set pid, i | pid in m && 0 <= i < |m[pid].compList| :: m[pid].compList[i]
  }

  lemma ComponentsOfAdd(m: map<int, ProcessCompInfos>, pid: int, p: ProcessCompInfos, e: SecCompEntity)
    requires p.compList == (if pid in m then m[pid].compList else []) + [e]
    ensures ComponentsOf(m[pid := p]) == ComponentsOf(m) + {e}
  {
    var m' := m[pid := p];
    var n := |p.compList| - 1;
    assert m'[pid].compList[n] == e;
    forall x | x in ComponentsOf(m) ensures x in ComponentsOf(m') {
      var q, i :| q in m && 0 <= i < |m[q].compList| && m[q].compList[i] == x;
      assert m'[q].compList[i] == x;
    }
    forall x | x in ComponentsOf(m') ensures x in ComponentsOf(m) + {e} {
      var q, i :| q in m' && 0 <= i < |m'[q].compList| && m'[q].compList[i] == x;
      if q != pid || i < n {
        assert m[q].compList[i] == x;
      }
    }
  }

  lemma ComponentsAreLive(m: map<int, ProcessCompInfos>)
    ensures forall e :: e in ComponentsOf(m) ==> e.scId in LiveIds(ProcsOf(m))
  {
    forall e | e in ComponentsOf(m) ensures e.scId in LiveIds(ProcsOf(m)) {
      var pid, i :| pid in m && 0 <= i < |m[pid].compList| && m[pid].compList[i] == e;
      var comps := ProcsOf(m)[pid].comps;
      assert comps[i] == e.scId;
      assert pid in ProcsOf(m) && e.scId in ProcsOf(m)[pid].comps;
    }
  }

  lemma {:induction false} EraseIsRemoveFirst(list: seq<SecCompEntity>, i: nat)
    requires i < |list| && forall j :: 0 <= j < i ==> list[j].scId != list[i].scId
    ensures Ids(list[..i] + list[i + 1..]) == RemoveFirst(Ids(list), list[i].scId)
  {
    if i == 0 {
      assert Ids(list)[1..] == Ids(list[1..]);
    } else {
      EraseIsRemoveFirst(list[1..], i - 1);
      assert Ids(list)[1..] == Ids(list[1..]);
      assert list[..i] + list[i + 1..] == [list[0]] + (list[1..][..i - 1] + list[1..][i..]);
      assert Ids(list[..i] + list[i + 1..]) == [list[0].scId] + Ids(list[1..][..i - 1] + list[1..][i..]);
    }
  }

  class SecCompManager {
    /** Every component object handed out, by its latest id. */
    ghost var objects: map<int, SecCompEntity>
    var componentMap: map<int, ProcessCompInfos>
    var scIdStart: int
    var isSaExit: bool
    var superFoldOffsetY: int
    const secHandler: SecEventHandler
    const permManager: SecCompPermManager
    const dialog: FirstUseDialog
    const malicious: Mal.SecCompMaliciousApps

    constructor (manager: SecCompPermManager, firstUse: FirstUseDialog)
      ensures permManager == manager && dialog == firstUse && secHandler == manager.secHandler
      requires manager.secHandler == firstUse.secHandler && firstUse.dialogWaitMap == map[]
      ensures Valid() && fresh(malicious)
      ensures Snapshot() == State(map[], SC_ID_START, false, 0, map[], manager.View(), firstUse.View(),
                                  Mal.MalState(map[], {}), Free, MapFree, [], map[], [], [], [], [])
    {
      objects := map[];
      componentMap, scIdStart, isSaExit, superFoldOffsetY := map[], SC_ID_START, false, 0;
      permManager, dialog, secHandler := manager, firstUse, manager.secHandler;
      malicious := new Mal.SecCompMaliciousApps();
    }

    /** One event handler serves the permission manager, the dialog and the exit task. */
    ghost predicate Valid()
      reads this, dialog
    {
      && permManager.secHandler == secHandler && dialog.secHandler == secHandler
      && (forall e :: e in Components() ==> e.scId in objects && objects[e.scId] == e)
      && (forall k :: k in dialog.dialogWaitMap ==> k in objects && objects[k] == dialog.dialogWaitMap[k])
      && (forall k :: k in objects ==> objects[k].scId == k)
    }

    ghost function View(): Procs
      reads this
    {
      ProcsOf(componentMap)
    }

    ghost function Components(): set<SecCompEntity>
      reads this
    {
      ComponentsOf(componentMap)
    }

    ghost function Entities(): map<int, EntityView>
      reads this, objects.Values
    {
      map k | k in objects :: objects[k].View()
    }

    /** The state of the machine between calls. */
    ghost function Snapshot(): State
      reads this, objects.Values, permManager, permManager.kit, permManager.secHandler, dialog, malicious
    {
      State(View(), scIdStart, isSaExit, superFoldOffsetY, Entities(), permManager.View(), dialog.View(),
            malicious.View(), Free, MapFree, [], map[], [], [], [], [])
    }

    // Component ids

    method IsScIdExist(scId: int) returns (exists_: bool)
      ensures exists_ == (scId in LiveIds(View()))
    {
      var todo := componentMap.Keys;
      while todo != {}
        invariant todo <= componentMap.Keys
        invariant forall pid :: pid in componentMap && pid !in todo ==> scId !in Ids(componentMap[pid].compList)
        decreases todo
      {
        var pid := AnyOf(todo);
        var list := componentMap[pid].compList;
        for i := 0 to |list|
          invariant forall j :: 0 <= j < i ==> list[j].scId != scId
        {
          if list[i].scId == scId {
            assert Ids(list)[i] == scId;
            assert scId in View()[pid].comps;
            return true;
          }
        }
        todo := todo - {pid};
      }
      exists_ := false;
    }

    /** The do-while search: it ends because fewer ids are live than there are ids. */
    method CreateScId() returns (id: int)
      requires IdInRange(scIdStart) && |LiveIds(View())| < ID_RANGE
      modifies this`scIdStart
      ensures id == scIdStart == FirstFree(old(scIdStart), LiveIds(View()))
    {
      ghost var start := scIdStart;
      ghost var live := LiveIds(View());
      ghost var k := FirstFreeMeaning(start, live);
      ghost var n := 1;
      NthIsNext(start, 0);
      scIdStart := if scIdStart == MAX_INT_NUM then SC_ID_START else scIdStart + 1;
      var taken := IsScIdExist(scIdStart);
      while taken
        invariant 1 <= n <= k && scIdStart == NthId(start, n) && taken == (scIdStart in live)
        invariant live == LiveIds(View())
        decreases k - n
      {
        NthIsNext(start, n);
        NthNext(start, n);
        scIdStart := if scIdStart == MAX_INT_NUM then SC_ID_START else scIdStart + 1;
        n := n + 1;
        taken := IsScIdExist(scIdStart);
      }
      id := scIdStart;
    }

    // Lists per process

    method AddSecurityComponentToList(pid: int, tokenId: TokenId, newEntity: SecCompEntity) returns (res: int)
      modifies this`componentMap, secHandler
      ensures (View(), res) == AddComponent(old(View()), isSaExit, pid, tokenId, newEntity.scId)
      ensures secHandler.tasks == if res == SC_OK then Without(old(secHandler.tasks), {DELAY_EXIT_NAME})
              else old(secHandler.tasks)
      ensures Components() == if res == SC_OK then old(Components()) + {newEntity} else old(Components())
    {
      if isSaExit {
        return SC_SERVICE_ERROR_SERVICE_NOT_EXIST;
      }
      ghost var before := componentMap;
      if pid in componentMap {
        var infos := componentMap[pid];
        if |infos.compList| > MAX_SINGLE_PROC_COMP_SIZE {
          return SC_SERVICE_ERROR_VALUE_INVALID;
        }
        var more := infos.(isForeground := true, compList := infos.compList + [newEntity]);
        componentMap := componentMap[pid := more];
        ProcsOfPut(before, pid, more);
        assert Ids(infos.compList + [newEntity]) == Ids(infos.compList) + [newEntity.scId];
        ComponentsOfAdd(before, pid, more, newEntity);
      } else {
        var newProcess := ProcessCompInfos([newEntity], true, tokenId);
        componentMap := componentMap[pid := newProcess];
        ProcsOfPut(before, pid, newProcess);
        ComponentsOfAdd(before, pid, newProcess, newEntity);
        assert Ids([newEntity]) == [newEntity.scId];
      }
      secHandler.ProxyRemoveTask(DELAY_EXIT_NAME);
      res := SC_OK;
    }

    method DeleteSecurityComponentFromList(pid: int, scId: int) returns (res: int)
      modifies this`componentMap, secHandler
      ensures (View(), res) == DeleteComponent(old(View()), pid, scId)
      ensures secHandler.tasks == if res == SC_OK then old(secHandler.tasks) + [EXIT_TASK] else old(secHandler.tasks)
      ensures Components() <= old(Components())
    {
      if pid !in componentMap {
        return SC_SERVICE_ERROR_COMPONENT_NOT_EXIST;
      }
      var list := componentMap[pid].compList;
      for i := 0 to |list|
        invariant forall j :: 0 <= j < i ==> list[j].scId != scId
        invariant componentMap == old(componentMap) && secHandler.tasks == old(secHandler.tasks)
      {
        if list[i].scId == scId {
          EraseIsRemoveFirst(list, i);
          assert Ids(list)[i] == scId;
          var rest := componentMap[pid].(compList := list[..i] + list[i + 1..]);
          assert forall e :: e in rest.compList ==> e in list;
          SetProcess(pid, rest);
          secHandler.ProxyPostTask(ExitSa, DELAY_EXIT_NAME, DELAY_EXIT);
          return SC_OK;
        }
      }
      res := SC_SERVICE_ERROR_COMPONENT_NOT_EXIST;
    }

    method GetSecurityComponentFromList(pid: int, scId: int) returns (sc: Option<SecCompEntity>)
      ensures sc.Some? == HasComponent(View(), pid, scId)
      ensures sc.Some? ==> sc.value.scId == scId && sc.value in componentMap[pid].compList && sc.value in Components()
    {
      if pid !in componentMap {
        return None;
      }
      var list := componentMap[pid].compList;
      for i := 0 to |list|
        invariant forall j :: 0 <= j < i ==> list[j].scId != scId
      {
        if list[i].scId == scId {
          assert Ids(list)[i] == scId;
          return Some(list[i]);
        }
      }
      sc := None;
    }

    method IsCompExist() returns (any: bool)
      ensures any == AnyComponent(View())
      ensures any <==> exists pid :: pid in componentMap && componentMap[pid].compList != []
    {
      var todo := componentMap.Keys;
      while todo != {}
        invariant todo <= componentMap.Keys
        invariant forall pid :: pid in componentMap && pid !in todo ==> componentMap[pid].compList == []
        decreases todo
      {
        var pid := AnyOf(todo);
        if |componentMap[pid].compList| > 0 {
          assert View()[pid].comps != [];
          return true;
        }
        todo := todo - {pid};
      }
      any := false;
    }

    // Processes

    method NotifyProcessForeground(pid: int)
      requires Valid()
      modifies this`componentMap, secHandler
      ensures Valid() && Snapshot() == DoForeground(old(Snapshot()), pid)
    {
      if pid !in componentMap {
        return;
      }
      permManager.CancelAppRevokingPermisions(componentMap[pid].tokenId);
      SetProcess(pid, componentMap[pid].(isForeground := true));
    }

    method NotifyProcessBackground(pid: int)
      requires Valid()
      modifies this`componentMap, secHandler
      ensures Valid() && Snapshot() == DoBackground(old(Snapshot()), pid)
    {
      if pid !in componentMap {
        return;
      }
      permManager.RevokeAppPermisionsDelayed(componentMap[pid].tokenId);
      SetProcess(pid, componentMap[pid].(isForeground := false));
    }

    /** Stores a process whose components are all known. */
    method SetProcess(pid: int, p: ProcessCompInfos)
      requires forall e :: e in p.compList ==> e in Components()
      modifies this`componentMap
      ensures View() == old(View())[pid := ProcOf(p)] && componentMap == old(componentMap)[pid := p]
      ensures Components() <= old(Components())
    {
      ProcsOfPut(componentMap, pid, p);
      ghost var before := componentMap;
      componentMap := componentMap[pid := p];
      forall e | e in Components() ensures e in ComponentsOf(before) {
        var q, i :| q in componentMap && 0 <= i < |componentMap[q].compList| && componentMap[q].compList[i] == e;
        if q == pid {
          assert e in p.compList;
        } else {
          assert before[q].compList[i] == e;
        }
      }
    }

    method RevokeAllOf(tokenId: TokenId)
      requires permManager.secHandler == secHandler
      modifies permManager, permManager.kit, secHandler
      ensures permManager.View() == RevokeSaveAll(CancelRevokeAll(RevokeNow(old(permManager.View()), tokenId),
              tokenId), tokenId)
    {
      permManager.RevokeAppPermissions(tokenId);
      permManager.RevokeTempSavePermission(tokenId);
    }

    method NotifyProcessDied(pid: int, isProcessCached: bool)
      requires Valid()
      modifies this`componentMap, secHandler, malicious, dialog`dialogWaitMap, permManager, permManager.kit
      ensures Valid() && Snapshot() == AfterDeath(old(Snapshot()), pid, isProcessCached)
    {
      if !isProcessCached {
        malicious.RemoveAppFromMaliciousAppList(pid);
      }
      assert permManager.View() == old(permManager.View()) && dialog.View() == old(dialog.View());
      if pid !in componentMap {
        return;
      }
      DropProcess(pid);
      assert Entities() == old(Entities());
    }

    method DropProcess(pid: int)
      requires Valid() && pid in componentMap
      modifies this`componentMap, secHandler, dialog`dialogWaitMap, permManager, permManager.kit
      ensures Valid() && View() == old(View()) - {pid} && dialog.View() == RemoveWaits(old(dialog.View()), pid)
      ensures permManager.View() == Released(old(permManager.View()), old(View())[pid].token)
    {
      DropWaits(pid);
      RemoveProcess(pid);
    }

    /** The waits that are left were there before. */
    method DropWaits(pid: int)
      requires Valid()
      modifies dialog`dialogWaitMap
      ensures Valid() && dialog.View() == RemoveWaits(old(dialog.View()), pid)
    {
      dialog.RemoveDialogWaitEntitys(pid);
      assert forall k :: k in dialog.dialogWaitMap ==> (k, dialog.dialogWaitMap[k]) in old(dialog.dialogWaitMap).Items;
    }

    method RemoveProcess(pid: int)
      requires permManager.secHandler == secHandler && pid in componentMap
      modifies this`componentMap, secHandler, permManager, permManager.kit
      ensures View() == old(View()) - {pid} && Components() <= old(Components())
      ensures permManager.View() == Released(old(permManager.View()), old(View())[pid].token)
    {
      SetProcess(pid, componentMap[pid].(compList := []));
      RevokeAllOf(componentMap[pid].tokenId);
      EraseProcess(pid);
      secHandler.ProxyPostTask(ExitSa, DELAY_EXIT_NAME, DELAY_EXIT);
    }

    method EraseProcess(pid: int)
      modifies this`componentMap
      ensures View() == old(View()) - {pid} && Components() <= old(Components())
    {
      ghost var before := componentMap;
      componentMap := componentMap - {pid};
      forall e | e in Components() ensures e in ComponentsOf(before) {
        var q, i :| q in componentMap && 0 <= i < |componentMap[q].compList| && componentMap[q].compList[i] == e;
        assert before[q].compList[i] == e;
      }
    }

    method ExitSaProcess()
      requires Valid()
      modifies this`isSaExit
      ensures Valid() && Snapshot() == old(Snapshot()).(saExit := isSaExit)
      ensures isSaExit <==> old(isSaExit) || forall pid :: pid in componentMap ==> componentMap[pid].compList == []
    {
      var exist := IsCompExist();
      if exist {
        return;
      }
      isSaExit := true;
    }

    /** `order` is the order in which the hash map happened to be walked. */
    method ClearAll() returns (ghost order: seq<int>)
      requires permManager.secHandler == secHandler
      modifies this`componentMap, permManager, permManager.kit, secHandler
      ensures componentMap == map[]
      ensures forall i :: 0 <= i < |order| ==> order[i] in old(View())
      ensures forall pid :: pid in old(View()) ==> pid in order
      ensures permManager.View() == RevokeEverything(old(permManager.View()), old(View()), order)
    {
      order := [];
      ghost var procs := View();
      ghost var perm := permManager.View();
      var todo := componentMap.Keys;
      while todo != {}
        invariant todo <= procs.Keys && todo <= componentMap.Keys
        invariant forall pid :: pid in todo ==> componentMap[pid].tokenId == procs[pid].token
        invariant forall i :: 0 <= i < |order| ==> order[i] in procs
        invariant forall pid :: pid in procs ==> pid in todo || pid in order
        invariant permManager.View() == RevokeEverything(perm, procs, order)
        decreases todo
      {
        var pid := AnyOf(todo);
        var tokenId := componentMap[pid].tokenId;
        componentMap := componentMap[pid := componentMap[pid].(compList := [])];
        RevokeOneMore(perm, procs, order, pid);
        RevokeAllOf(tokenId);
        todo, order := todo - {pid}, order + [pid];
      }
      componentMap := map[];
    }

    method ExitWhenAppMgrDied() returns (ghost order: seq<int>)
      requires Valid()
      modifies this`componentMap, this`isSaExit, permManager, permManager.kit, secHandler
      ensures Valid()
      ensures forall i :: 0 <= i < |order| ==> order[i] in old(View())
      ensures forall pid :: pid in old(View()) ==> pid in order
      ensures Snapshot() == AfterAppMgr(old(Snapshot()), order)
    {
      order := ClearAll();
      isSaExit := true;
      assert Entities() == old(Entities());
    }

    method AddSecurityComponentProcess(caller: Caller) returns (res: int)
      requires Valid()
      modifies this`componentMap, secHandler
      ensures Valid() && Snapshot() == AfterPreRegister(old(Snapshot()), caller)
      ensures res == if isSaExit then SC_SERVICE_ERROR_SERVICE_NOT_EXIST else SC_OK
    {
      secHandler.ProxyRemoveTask(DELAY_EXIT_NAME);
      if isSaExit {
        return SC_SERVICE_ERROR_SERVICE_NOT_EXIST;
      }
      if caller.pid !in componentMap {
        var newProcess := ProcessCompInfos([], true, caller.token);
        assert Ids([]) == [];
        SetProcess(caller.pid, newProcess);
      }
      res := SC_OK;
    }

    // Calls from applications

    /** `scId` is left as the caller had it when the request never reaches the register. */
    method RegisterSecurityComponent(caller: Caller, r: ReportInput, scIdBefore: int) returns (res: int, scId: int)
      requires Valid() && IdInRange(scIdStart) && |LiveIds(View())| < ID_RANGE
      requires FirstFree(scIdStart, LiveIds(View())) !in dialog.dialogWaitMap
      modifies this`componentMap, this`scIdStart, this`objects, malicious, secHandler
      ensures Valid() && Snapshot() == AfterRegister(old(Snapshot()), caller, r)
      ensures res == RegisterRes(old(Snapshot()), caller, r)
      ensures scId == if res == SC_OK then scIdStart
                      else if Admitted(old(Snapshot()), caller, r) then INVALID_SC_ID else scIdBefore
    {
      scId := scIdBefore;
      res := CheckReported(caller, r);
      assert Entities() == old(Entities());
      assert permManager.View() == old(permManager.View()) && dialog.View() == old(dialog.View());
      if res != SC_OK {
        return;
      }
      res, scId := AddNew(caller, r.report.value, r.customAuthorized);
    }

    method AddNew(caller: Caller, component: Component, customAuthorized: bool) returns (res: int, scId: int)
      requires Valid() && IdInRange(scIdStart) && |LiveIds(View())| < ID_RANGE
      requires FirstFree(scIdStart, LiveIds(View())) !in dialog.dialogWaitMap
      modifies this`componentMap, this`scIdStart, this`objects, secHandler
      ensures Valid() && Snapshot() == AfterAdd(old(Snapshot()), caller, component, customAuthorized)
      ensures res == AddComponent(old(View()), isSaExit, caller.pid, caller.token, scIdStart).1
      ensures scId == if res == SC_OK then scIdStart else INVALID_SC_ID
    {
      var entity := NewEntity(caller, component, customAuthorized);
      assert Entities() == old(Entities());
      assert dialog.View() == old(dialog.View()) && malicious.View() == old(malicious.View());
      res := AddEntity(caller, entity);
      scId := if res == SC_OK then entity.scId else INVALID_SC_ID;
    }

    method CheckReported(caller: Caller, r: ReportInput) returns (res: int)
      modifies malicious
      ensures res == if Mal.Blocked(old(malicious.View()), caller.pid, caller.uid)
                     then SC_ENHANCE_ERROR_IN_MALICIOUS_LIST
                     else if r.report.None? then SC_SERVICE_ERROR_COMPONENT_INFO_INVALID
                     else r.enhanceRes
      ensures malicious.View() == if Mal.Blocked(old(malicious.View()), caller.pid, caller.uid) || r.report.None?
                                  then old(malicious.View())
                                  else if r.enhanceRes != SC_OK then Mal.Add(old(malicious.View()), caller.pid)
                                  else Mal.Reset(old(malicious.View()), caller.pid)
    {
      var blocked := malicious.IsInMaliciousAppList(caller.pid, caller.uid);
      if blocked {
        return SC_ENHANCE_ERROR_IN_MALICIOUS_LIST;
      }
      if r.report.None? {
        return SC_SERVICE_ERROR_COMPONENT_INFO_INVALID;
      }
      if r.enhanceRes != SC_OK {
        malicious.AddAppToMaliciousAppList(caller.pid);
        return r.enhanceRes;
      }
      malicious.ResetAppMaliciousFailCount(caller.pid);
      res := SC_OK;
    }

    method AddEntity(caller: Caller, entity: SecCompEntity) returns (res: int)
      requires Valid()
      requires entity.scId !in dialog.dialogWaitMap && forall e :: e in Components() ==> e.scId != entity.scId
      modifies this`componentMap, this`objects, secHandler
      ensures Valid() && (View(), res) == AddComponent(old(View()), isSaExit, caller.pid, caller.token, entity.scId)
      ensures Entities() == if res == SC_OK then old(Entities())[entity.scId := entity.View()] else old(Entities())
      ensures secHandler.tasks == if res == SC_OK then Without(old(secHandler.tasks), {DELAY_EXIT_NAME})
              else old(secHandler.tasks)
    {
      res := AddSecurityComponentToList(caller.pid, caller.token, entity);
      assert Entities() == old(Entities());
      if res == SC_OK {
        StillKnown(old(Components()), entity);
        Remember(entity);
      }
    }

    method NewEntity(caller: Caller, component: Component, customAuthorized: bool) returns (entity: SecCompEntity)
      requires IdInRange(scIdStart) && |LiveIds(View())| < ID_RANGE
      modifies this`scIdStart
      ensures fresh(entity) && scIdStart == FirstFree(old(scIdStart), LiveIds(View()))
      ensures entity.View() == EntityView(scIdStart, caller.pid, caller.token, component, customAuthorized,
                                           false, false)
      ensures scIdStart !in LiveIds(View()) && forall e :: e in Components() ==> e.scId != scIdStart
      ensures Entities() == old(Entities())
    {
      ghost var k := FirstFreeMeaning(scIdStart, LiveIds(View()));
      ComponentsAreLive(componentMap);
      var registerId := CreateScId();
      entity := new SecCompEntity(component, registerId, caller.pid, caller.token);
      entity.isCustomAuthorized := customAuthorized;
    }

    /** The components known before are known by other ids than the new one. */
    lemma StillKnown(before: set<SecCompEntity>, entity: SecCompEntity)
      requires Components() == before + {entity}
      requires forall e :: e in before ==> e.scId in objects && objects[e.scId] == e && e.scId != entity.scId
      ensures forall e :: e in Components() && e != entity ==>
              e.scId in objects && objects[e.scId] == e && e.scId != entity.scId
    {
    }

    ghost method Remember(entity: SecCompEntity)
      requires permManager.secHandler == secHandler && dialog.secHandler == secHandler
      requires forall e :: e in Components() && e != entity ==>
               e.scId in objects && objects[e.scId] == e && e.scId != entity.scId
      requires forall k :: k in dialog.dialogWaitMap ==>
               k in objects && objects[k] == dialog.dialogWaitMap[k] && k != entity.scId
      requires forall k :: k in objects ==> objects[k].scId == k
      modifies this`objects
      ensures Valid() && Entities() == old(Entities())[entity.scId := entity.View()]
    {
      objects := objects[entity.scId := entity];
    }

    method UpdateSecurityComponent(scId: int, caller: Caller, r: ReportInput) returns (res: int)
      requires Valid()
      modifies objects.Values, malicious
      ensures Valid() && Snapshot() == AfterUpdate(old(Snapshot()), scId, caller, r)
      ensures res == UpdateRes(old(Snapshot()), scId, caller, r)
    {
      var blocked := malicious.IsInMaliciousAppList(caller.pid, caller.uid);
      if blocked {
        return SC_ENHANCE_ERROR_IN_MALICIOUS_LIST;
      }
      var sc := GetSecurityComponentFromList(caller.pid, scId);
      if sc.None? {
        return SC_SERVICE_ERROR_COMPONENT_NOT_EXIST;
      }
      assert sc.value == objects[scId] && sc.value in objects.Values && scId in Entities();
      res := UpdateFound(sc.value, caller, r);
    }

    method UpdateFound(sc: SecCompEntity, caller: Caller, r: ReportInput) returns (res: int)
      requires Valid() && sc in Components() && HasComponent(View(), caller.pid, sc.scId)
      modifies sc`componentInfo, malicious
      ensures Valid() && Snapshot() == DoUpdate(old(Snapshot()), sc.scId, caller, r)
      ensures res == if r.report.None? then SC_SERVICE_ERROR_COMPONENT_INFO_INVALID else r.enhanceRes
    {
      res := UpdateReport(sc, caller.pid, r);
      assert permManager.View() == old(permManager.View()) && dialog.View() == old(dialog.View());
    }

    method UpdateReport(sc: SecCompEntity, pid: int, r: ReportInput) returns (res: int)
      requires Valid() && sc in Components()
      modifies sc`componentInfo, malicious
      ensures Entities() == if r.report.Some? && r.enhanceRes == SC_OK
                            then old(Entities())[sc.scId := old(Entities())[sc.scId].(comp := r.report.value)]
                            else old(Entities())
      ensures res == if r.report.None? then SC_SERVICE_ERROR_COMPONENT_INFO_INVALID else r.enhanceRes
      ensures malicious.View() == if r.report.None? then old(malicious.View())
                                  else if r.enhanceRes != SC_OK then Mal.Add(old(malicious.View()), pid)
                                  else Mal.Reset(old(malicious.View()), pid)
    {
      if r.report.None? {
        return SC_SERVICE_ERROR_COMPONENT_INFO_INVALID;
      }
      if r.enhanceRes != SC_OK {
        malicious.AddAppToMaliciousAppList(pid);
        return r.enhanceRes;
      }
      malicious.ResetAppMaliciousFailCount(pid);
      StoreReport(sc, r.report.value);
      res := SC_OK;
    }

    method StoreReport(sc: SecCompEntity, report: Component)
      requires Valid() && sc in Components()
      modifies sc`componentInfo
      ensures Entities() == old(Entities())[sc.scId := old(sc.View()).(comp := report)]
    {
      assert forall k :: k in objects && k != sc.scId ==> objects[k] != sc;
      sc.componentInfo := report;
      assert sc.View() == old(sc.View()).(comp := report);
    }

    method UnregisterSecurityComponent(scId: int, caller: Caller) returns (res: int)
      requires Valid()
      modifies this`componentMap, secHandler
      ensures Valid() && Snapshot() == DoUnregister(old(Snapshot()), scId, caller)
      ensures res == UnregisterRes(old(Snapshot()), scId, caller)
    {
      if scId < 0 {
        return SC_SERVICE_ERROR_VALUE_INVALID;
      }
      res := DeleteSecurityComponentFromList(caller.pid, scId);
      assert Entities() == old(Entities());
    }

    // A click

    method GetFoldOffsetY(cross: CrossAxisState, reading: int)
      modifies this`superFoldOffsetY
      ensures superFoldOffsetY == FoldOffset(old(superFoldOffsetY), cross, reading)
    {
      if cross == StateInvalid {
        return;
      }
      if superFoldOffsetY != 0 {
        return;
      }
      superFoldOffsetY := reading;
    }

    method CheckRectInfo(sc: SecCompEntity, report: Component, input: ClickInput) returns (res: int)
      modifies sc`bypassSecurityCheck, this`superFoldOffsetY
      ensures superFoldOffsetY == FoldOffset(old(superFoldOffsetY), report.crossAxis, input.foldOffset)
      ensures var messageEmpty := input.rectAnswer == RectWithoutMessage && input.parseMessageEmpty;
              && sc.View() == (if input.rectAnswer == RectValid then old(sc.View())
                               else WithBypass(old(sc.View()), messageEmpty))
              && res == (if input.rectAnswer == RectValid || MayBypass(old(sc.View()), messageEmpty) then SC_OK
                         else SC_SERVICE_ERROR_COMPONENT_INFO_INVALID)
    {
      GetFoldOffsetY(report.crossAxis, input.foldOffset);
      if input.rectAnswer != RectValid {
        var allowed := sc.AllowToBypassSecurityCheck(input.rectAnswer == RectWithoutMessage && input.parseMessageEmpty);
        if !allowed {
          return SC_SERVICE_ERROR_COMPONENT_INFO_INVALID;
        }
      }
      res := SC_OK;
    }

    method CheckComponentInfoValid(sc: SecCompEntity, input: ClickInput) returns (res: int)
      modifies sc`bypassSecurityCheck
      ensures sc.View() == if input.report.None? || input.report.value.valid then old(sc.View())
                           else WithBypass(old(sc.View()), input.parseMessageEmpty)
      ensures res == if input.report.Some? &&
                        (input.report.value.valid || MayBypass(old(sc.View()), input.parseMessageEmpty))
                     then SC_OK else SC_SERVICE_ERROR_COMPONENT_INFO_INVALID
    {
      if input.report.None? || !input.report.value.valid {
        var allowed := false;
        if input.report.Some? {
          allowed := sc.AllowToBypassSecurityCheck(input.parseMessageEmpty);
        }
        if !allowed {
          return SC_SERVICE_ERROR_COMPONENT_INFO_INVALID;
        }
      }
      res := SC_OK;
    }

    /** Up to the point where the report is stored; what remains of the judgement is the entity's own. */
    method CheckClickSecurityComponentInfo(sc: SecCompEntity, pid: int, input: ClickInput) returns (res: int)
      modifies sc, this`superFoldOffsetY, malicious
      ensures var v := JudgeReport(old(sc.View()), input, old(superFoldOffsetY));
              if res == SC_OK then
                v == JudgeEvent(sc.View(), input, superFoldOffsetY) &&
                  malicious.View() == Mal.Reset(old(malicious.View()), pid)
              else
                v == ClickVerdict(sc.View(), superFoldOffsetY, res, v.count, false)
                && malicious.View() == MalAfter(old(malicious.View()), pid, v.count)
    {
      res := CheckComponentInfoValid(sc, input);
      if res != SC_OK {
        return;
      }
      var report := input.report.value;
      res := CheckRectInfo(sc, report, input);
      if res != SC_OK {
        return;
      }
      if input.enhanceRes != SC_OK {
        malicious.AddAppToMaliciousAppList(pid);
        return input.enhanceRes;
      }
      malicious.ResetAppMaliciousFailCount(pid);
      sc.componentInfo := report;
      res := SC_OK;
    }

    /** Everything a click goes through before the dialog. */
    method JudgeReportedClick(sc: SecCompEntity, pid: int, input: ClickInput) returns (res: int, accepted: bool)
      modifies sc, this`superFoldOffsetY, malicious
      ensures var v := JudgeClick(old(sc.View()), input, old(superFoldOffsetY));
              && sc.View() == v.entity && superFoldOffsetY == v.offset && res == v.res && accepted == v.accepted
              && malicious.View() == MalAfter(old(malicious.View()), pid, v.count)
    {
      accepted := false;
      if sc.componentInfo.ty == Paste && input.readPasteboardGranted {
        return SC_OK, false;
      }
      if !input.messageEmpty {
        var allowed := sc.AllowToBypassSecurityCheck(false);
        if !allowed && !input.bundleBypassed {
          return SC_SERVICE_ERROR_CLICK_EVENT_INVALID, false;
        }
      }
      res := CheckClickSecurityComponentInfo(sc, pid, input);
      if res != SC_OK {
        return;
      }
      res := sc.CheckClickInfo(input, superFoldOffsetY);
      if res != SC_OK {
        if res == SC_ENHANCE_ERROR_CLICK_EXTRA_CHECK_FAIL {
          malicious.AddAppToMaliciousAppList(pid);
        }
        return SC_SERVICE_ERROR_CLICK_EVENT_INVALID, false;
      }
      malicious.ResetAppMaliciousFailCount(pid);
      accepted := true;
    }

    method StartDialog(sc: SecCompEntity, a: DialogAnswer, first: Answer, second: Answer) returns (res: int)
      modifies sc, dialog`dialogWaitMap, permManager, permManager.kit, permManager.secHandler
      ensures AtMostAdds(dialog.dialogWaitMap, old(dialog.dialogWaitMap), sc.scId, sc)
      ensures var (d, notified) := Notify(old(dialog.View()), sc.scId, Owner(sc.pid, sc.token),
              old(sc.componentInfo.ty), a);
              && dialog.View() == d
              && (notified != SC_OK ==>
                    res == notified && sc.View() == old(sc.View()) && permManager.View() == old(permManager.View()))
              && (notified == SC_OK ==>
                    && sc.View() == old(sc.View()).(isGrant := true)
                    && (permManager.View(), res)
                       == GrantUninterrupted(old(permManager.View()), sc.token, old(sc.componentInfo.ty), Begin,
                                             first, second))
    {
      res := dialog.NotifyFirstUseDialog(sc, a);
      if res == SC_SERVICE_ERROR_WAIT_FOR_DIALOG_CLOSE {
        return;
      }
      if res != SC_OK {
        return;
      }
      res := sc.GrantTempPermission(permManager, first, second);
    }

    method ReportSecurityComponentClickEvent(scId: int, caller: Caller, input: ClickInput, a: DialogAnswer,
        first: Answer, second: Answer)
      returns (res: int)
      requires Valid()
      modifies this`superFoldOffsetY, objects.Values, malicious, dialog`dialogWaitMap, permManager, permManager.kit,
        secHandler
      ensures Valid() && Snapshot() == AfterClick(old(Snapshot()), scId, caller, input, a, first, second)
      ensures res == ClickRes(old(Snapshot()), scId, caller, input, a, first, second)
    {
      if input.remotes < REPORT_REMOTE_OBJECT_SIZE {
        return SC_SERVICE_ERROR_VALUE_INVALID;
      }
      var blocked := malicious.IsInMaliciousAppList(caller.pid, caller.uid);
      if blocked {
        return SC_ENHANCE_ERROR_IN_MALICIOUS_LIST;
      }
      var sc := GetSecurityComponentFromList(caller.pid, scId);
      if sc.None? {
        return SC_SERVICE_ERROR_COMPONENT_NOT_EXIST;
      }
      assert sc.value == objects[scId] && sc.value in objects.Values;
      var accepted;
      res, accepted := JudgeFound(sc.value, caller.pid, input);
      if accepted {
        res := StartFound(sc.value, a, first, second);
      }
    }

    method JudgeFound(sc: SecCompEntity, pid: int, input: ClickInput) returns (res: int, accepted: bool)
      requires Valid() && sc in Components()
      modifies sc, this`superFoldOffsetY, malicious
      ensures Valid() && Snapshot() == AfterJudgement(old(Snapshot()), sc.scId, pid, input)
      ensures var v := JudgeClick(old(sc.View()), input, old(superFoldOffsetY)); accepted == v.accepted && res == v.res
    {
      assert forall k :: k in objects && k != sc.scId ==> objects[k] != sc;
      res, accepted := JudgeReportedClick(sc, pid, input);
      assert Entities() == old(Entities())[sc.scId := sc.View()];
    }

    method StartFound(sc: SecCompEntity, a: DialogAnswer, first: Answer, second: Answer) returns (res: int)
      requires Valid() && sc in Components()
      modifies sc, dialog`dialogWaitMap, permManager, permManager.kit, secHandler
      ensures Valid() && Snapshot() == AfterStart(old(Snapshot()), sc.scId, a, first, second)
      ensures res == StartRes(old(Snapshot()), sc.scId, a, first, second)
    {
      assert forall k :: k in objects && k != sc.scId ==> objects[k] != sc;
      res := StartDialog(sc, a, first, second);
      assert Entities() == old(Entities())[sc.scId := sc.View()];
    }
  }
}
