/**
 Temporary permissions: the save counter with its queue of revoke tasks, and the
 record of permissions granted through the access-token kit. First the sections
 that run under one mutex, as functions; then the class that updates its fields.
 */
module PermManager {
  import opened Types
  import opened TaskNames
  import opened EventHandler

  /**
   The fields of SecCompPermManager, the permissions the access-token kit holds
   with the component flag, and the tasks of the event handler.
   */
  datatype PermState = PermState(
    counts: map<TokenId, int>,
    deques: map<TokenId, seq<string>>,
    grantMap: map<TokenId, set<Permission>>,
    held: set<(TokenId, Permission)>,
    tasks: seq<Task>)

  function DequeOf(s: PermState, t: TokenId): seq<string> {
    if t in s.deques then s.deques[t] else []
  }

  function CountOf(s: PermState, t: TokenId): int {
    if t in s.counts then s.counts[t] else 0
  }

  function GrantedSet(s: PermState, t: TokenId): set<Permission> {
    if t in s.grantMap then s.grantMap[t] else {}
  }

  predicate VerifySave(s: PermState, t: TokenId) {
    t in s.counts && s.counts[t] != 0
  }

  // Sections of the save counter

  function PostSave(s: PermState, t: TokenId, name: string): PermState {
    s.(tasks := s.tasks + [Task(name, DELAY_SAVE_REVOKE, RevokeSaveCount(t))])
  }

  function PushSave(s: PermState, t: TokenId, name: string): PermState {
    s.(deques := s.deques[t := DequeOf(s, t) + [name]], counts := s.counts[t := CountOf(s, t) + 1])
  }

  function RevokeSaveOnce(s: PermState, t: TokenId): PermState {
    if t !in s.counts then s
    else if DequeOf(s, t) == [] then s.(deques := s.deques[t := []])
    else
      var name := s.deques[t][0];
      s.(tasks := Without(s.tasks, {name}),
         deques := s.deques[t := s.deques[t][1..]],
         counts := if s.counts[t] == 1 then s.counts - {t} else s.counts[t := s.counts[t] - 1])
  }

  function ElementsOf(names: seq<string>): set<string> {
    set n | n in names
  }

  function RevokeSaveAll(s: PermState, t: TokenId): PermState {
    s.(counts := s.counts - {t},
       tasks := Without(s.tasks, ElementsOf(DequeOf(s, t))),
       deques := s.deques[t := []])
  }

  // Sections of the grant record

  function AddRecord(s: PermState, t: TokenId, p: Permission): PermState {
    s.(grantMap := s.grantMap[t := GrantedSet(s, t) + {p}])
  }

  function RemoveRecord(s: PermState, t: TokenId, p: Permission): PermState {
    if t in s.grantMap then s.(grantMap := s.grantMap[t := s.grantMap[t] - {p}]) else s
  }

  /** `res` is the kit's answer; the permission is recorded whatever it says. */
  function GrantApp(s: PermState, t: TokenId, p: Permission, res: int): PermState {
    AddRecord(if res == SC_OK then s.(held := s.held + {(t, p)}) else s, t, p)
  }

  function RevokeApp(s: PermState, t: TokenId, p: Permission): PermState {
    RemoveRecord(s.(held := s.held - {(t, p)}), t, p)
  }

  function HeldWithout(held: set<(TokenId, Permission)>, t: TokenId, gone: set<Permission>)
    : set<(TokenId, Permission)>
  {
    set x | x in held && !(x.0 == t && x.1 in gone)
  }

  function RevokeNow(s: PermState, t: TokenId): PermState {
    if t !in s.grantMap then s
    else s.(held := HeldWithout(s.held, t, s.grantMap[t]), grantMap := s.grantMap[t := {}])
  }

  function PostRevokeAll(s: PermState, t: TokenId): PermState {
    s.(tasks := s.tasks + [Task(RevokeAllName(t), DELAY_REVOKE, RevokeAll(t))])
  }

  function CancelRevokeAll(s: PermState, t: TokenId): PermState {
    s.(tasks := Without(s.tasks, {RevokeAllName(t)}))
  }

  // GrantTempPermission, one mutex section at a time

  /** Where a call of GrantTempPermission stands. */
  datatype GrantPc = Begin | NeedLocation | NeedRollback | NeedPush(name: string) | Finished(res: int)

  /** What the outside world answers during one section. */
  datatype Answer = Answer(kitRes: int, dlpSandbox: bool, clock: nat)

  function GrantSection(s: PermState, t: TokenId, ty: SecCompType, pc: GrantPc, a: Answer): (r: (PermState, GrantPc))
    requires !pc.Finished?
  {
    match pc
    case Begin =>
      if t == INVALID_TOKEN then (s, Finished(SC_SERVICE_ERROR_PERMISSION_OPER_FAIL))
      else (
        match ty
        case Location =>
          (GrantApp(s, t, ApproximatelyLocation, a.kitRes),
           if a.kitRes == SC_OK then NeedLocation else Finished(SC_SERVICE_ERROR_PERMISSION_OPER_FAIL))
        case Paste =>
          (GrantApp(s, t, SecurePaste, a.kitRes),
           Finished(if a.kitRes == SC_OK then SC_OK else SC_SERVICE_ERROR_PERMISSION_OPER_FAIL))
        case Save =>
          if a.dlpSandbox then (s, Finished(SC_SERVICE_ERROR_PERMISSION_OPER_FAIL))
          else (PostSave(s, t, SaveTaskName(t, a.clock)), NeedPush(SaveTaskName(t, a.clock)))
        case Unknown => (s, Finished(SC_SERVICE_ERROR_PERMISSION_OPER_FAIL))
      )
    case NeedLocation =>
      (GrantApp(s, t, PreciseLocation, a.kitRes),
       if a.kitRes == SC_OK then Finished(SC_OK) else NeedRollback)
    case NeedRollback =>
      (RevokeApp(s, t, ApproximatelyLocation), Finished(SC_SERVICE_ERROR_PERMISSION_OPER_FAIL))
    case NeedPush(name) =>
      (PushSave(s, t, name), Finished(SC_OK))
  }

  function SectionsLeft(pc: GrantPc): nat {
    match pc
    case Begin => 3
    case NeedLocation => 2
    case NeedRollback => 1
    case NeedPush(_) => 1
    case Finished(_) => 0
  }

  /** The sections run to the end with nothing in between; the second location call gets its own answer. */
  function GrantUninterrupted(s: PermState, t: TokenId, ty: SecCompType, pc: GrantPc, first: Answer, second: Answer)
    : (r: (PermState, int))
    decreases SectionsLeft(pc)
  {
    if pc.Finished? then (s, pc.res)
    else
      var next := GrantSection(s, t, ty, pc, if pc.Begin? then first else second);
      GrantUninterrupted(next.0, t, ty, next.1, first, second)
  }

  lemma {:induction false} GrantResults(s: PermState, t: TokenId, ty: SecCompType, pc: GrantPc, first: Answer,
        second: Answer)
    requires pc.Finished? ==> pc.res == SC_OK || pc.res == SC_SERVICE_ERROR_PERMISSION_OPER_FAIL
    ensures var res := GrantUninterrupted(s, t, ty, pc, first, second).1;
            res == SC_OK || res == SC_SERVICE_ERROR_PERMISSION_OPER_FAIL
    decreases SectionsLeft(pc)
  {
  }

  /** When a grant succeeds: a real token, and every kit call of its type, or no sandbox for save. */
  predicate GrantSucceeds(t: TokenId, ty: SecCompType, first: Answer, second: Answer) {
    && t != INVALID_TOKEN
    && match ty
       case Location => first.kitRes == SC_OK && second.kitRes == SC_OK
       case Paste => first.kitRes == SC_OK
       case Save => !first.dlpSandbox
       case Unknown => false
  }

  /** What a successful grant of each type gives its token, and nothing else to anyone. */
  ghost predicate GivesType(s: PermState, s': PermState, t: TokenId, ty: SecCompType) {
    match ty
    case Location => s'.held == s.held + {(t, ApproximatelyLocation), (t, PreciseLocation)} && s'.counts == s.counts
    case Paste => s'.held == s.held + {(t, SecurePaste)} && s'.counts == s.counts
    case Save => s'.held == s.held && CountOf(s', t) == CountOf(s, t) + 1
                 && forall u: TokenId :: u != t ==> CountOf(s', u) == CountOf(s, u)
    case Unknown => false
  }

  /** A grant that nothing interrupts gives exactly its type's permissions, or fails and gives nothing. */
  lemma GrantMeaning(s: PermState, t: TokenId, ty: SecCompType, first: Answer, second: Answer)
    ensures var (s', res) := GrantUninterrupted(s, t, ty, Begin, first, second);
            && res == (if GrantSucceeds(t, ty, first, second) then SC_OK else SC_SERVICE_ERROR_PERMISSION_OPER_FAIL)
            && (res == SC_OK ==> GivesType(s, s', t, ty))
            && s'.tasks == s.tasks +
                 (if res == SC_OK && ty == Save
                  then [Task(SaveTaskName(t, first.clock), DELAY_SAVE_REVOKE, RevokeSaveCount(t))] else [])
            && (res != SC_OK ==> s'.held <= s.held && s'.counts == s.counts)
  {
    var (s1, pc1) := GrantSection(s, t, ty, Begin, first);
    assert GrantUninterrupted(s, t, ty, Begin, first, second) == GrantUninterrupted(s1, t, ty, pc1, first, second);
    if !pc1.Finished? {
      var (s2, pc2) := GrantSection(s1, t, ty, pc1, second);
      assert GrantUninterrupted(s1, t, ty, pc1, first, second) == GrantUninterrupted(s2, t, ty, pc2, first, second);
      if !pc2.Finished? {
        var (s3, pc3) := GrantSection(s2, t, ty, pc2, second);
        assert GrantUninterrupted(s2, t, ty, pc2, first, second) == GrantUninterrupted(s3, t, ty, pc3, first, second);
      }
    }
  }

  // What the record is for

  /** Every permission held through the component flag is recorded. */
  ghost predicate Recorded(s: PermState) {
    forall x :: x in s.held ==> x.1 in GrantedSet(s, x.0)
  }

  ghost predicate HoldsNothing(s: PermState, t: TokenId) {
    forall p: Permission :: (t, p) !in s.held
  }

  lemma SectionKeepsRecorded(s: PermState, t: TokenId, ty: SecCompType, pc: GrantPc, a: Answer)
    requires Recorded(s) && !pc.Finished?
    ensures Recorded(GrantSection(s, t, ty, pc, a).0)
  {
  }

  /** Revoking at once takes everything from the token, because everything was recorded, and nothing from others. */
  lemma RevokeNowTakesAll(s: PermState, t: TokenId)
    requires Recorded(s)
    ensures var s' := RevokeNow(s, t);
            && Recorded(s') && HoldsNothing(s', t) && GrantedSet(s', t) == {}
            && (forall x: (TokenId, Permission) :: x.0 != t ==> (x in s'.held <==> x in s.held))
            && (forall u: TokenId :: u != t ==> GrantedSet(s', u) == GrantedSet(s, u))
  {
  }

  /** What an uninterrupted grant records, which is what a later revocation takes away. */
  lemma GrantRecords(s: PermState, t: TokenId, ty: SecCompType, first: Answer, second: Answer)
    ensures var (s', before) := (GrantUninterrupted(s, t, ty, Begin, first, second).0, GrantedSet(s, t));
            && GrantedSet(s', t) ==
               (if t == INVALID_TOKEN then before
                else if ty == Paste then before + {SecurePaste}
                else if ty != Location then before
                else if first.kitRes != SC_OK then before + {ApproximatelyLocation}
                else if second.kitRes != SC_OK then before + {PreciseLocation} - {ApproximatelyLocation}
                else before + {ApproximatelyLocation, PreciseLocation})
            && forall u: TokenId :: u != t ==> GrantedSet(s', u) == GrantedSet(s, u)
  {
    GrantResults(s, t, ty, Begin, first, second);
  }

  ghost predicate LocationAsPair(s: PermState, t: TokenId) {
    (t, ApproximatelyLocation) in s.held <==> (t, PreciseLocation) in s.held
  }

  /**
   A location grant that starts with both location permissions or neither ends
   so, unless the token already had both and only the second kit call fails: the
   rollback then takes the approximate permission the token had before.
   */
  lemma LocationGrantKeepsPair(s: PermState, t: TokenId, first: Answer, second: Answer)
    requires LocationAsPair(s, t)
    ensures var s' := GrantUninterrupted(s, t, Location, Begin, first, second).0;
            LocationAsPair(s', t) <==>
            !(t != INVALID_TOKEN && (t, PreciseLocation) in s.held && first.kitRes == SC_OK && second.kitRes != SC_OK)
  {
  }

  /** From nothing recorded: both permissions when the call succeeds, neither when it fails. */
  lemma LocationGrantFromNothing(s: PermState, t: TokenId, first: Answer, second: Answer)
    requires Recorded(s) && GrantedSet(s, t) == {}
    ensures var (s', res) := GrantUninterrupted(s, t, Location, Begin, first, second);
            if res == SC_OK then (t, ApproximatelyLocation) in s'.held && (t, PreciseLocation) in s'.held
            else HoldsNothing(s', t)
  {
  }

  /**
   Whatever ran between the two location calls: after the second one succeeds the token
   has both permissions or neither exactly when it still had the approximate one; after
   it fails and is rolled back, exactly when it did not have the precise one.
   */
  lemma SecondLocationCall(s: PermState, t: TokenId, a: Answer)
    ensures var (s', pc) := GrantSection(s, t, Location, NeedLocation, a);
            if a.kitRes == SC_OK then
              pc == Finished(SC_OK) && (LocationAsPair(s', t) <==> (t, ApproximatelyLocation) in s.held)
            else pc == NeedRollback && s'.held == s.held
    ensures LocationAsPair(GrantSection(s, t, Location, NeedRollback, a).0, t) <==> (t, PreciseLocation) !in s.held
  {
  }

  /**
   A revocation of the token that runs between the two location calls takes the first
   permission again; when the second call then succeeds, the precise permission is left alone.
   */
  lemma RevokeBetweenLocationCallsSplitsPair(s: PermState, t: TokenId, first: Answer, second: Answer)
    requires t != INVALID_TOKEN && first.kitRes == SC_OK && second.kitRes == SC_OK
    ensures var s1 := GrantSection(s, t, Location, Begin, first).0;
            var s2 := GrantSection(RevokeNow(s1, t), t, Location, NeedLocation, second).0;
            (t, PreciseLocation) in s2.held && (t, ApproximatelyLocation) !in s2.held
  {
    var s1 := GrantSection(s, t, Location, Begin, first).0;
    assert ApproximatelyLocation in GrantedSet(s1, t);
  }

  /** The access-token kit as the service sees it. Its answer to a grant comes from outside. */
  class AccessTokenKit {
    var held: set<(TokenId, Permission)>

    constructor ()
      ensures held == {}
    {
      held := {};
    }

    method GrantPermission(t: TokenId, p: Permission, answer: int) returns (res: int)
      modifies this
      ensures res == answer
      ensures held == if answer == SC_OK then old(held) + {(t, p)} else old(held)
    {
      res := answer;
      if answer == SC_OK {
        held := held + {(t, p)};
      }
    }

    method RevokePermission(t: TokenId, p: Permission)
      modifies this
      ensures held == old(held) - {(t, p)}
    {
      held := held - {(t, p)};
    }
  }

  class SecCompPermManager {
    var applySaveCountMap: map<TokenId, int>
    var saveTaskDequeMap: map<TokenId, seq<string>>
    var grantMap: map<TokenId, set<Permission>>
    const secHandler: SecEventHandler
    const kit: AccessTokenKit

    constructor (handler: SecEventHandler, accessTokenKit: AccessTokenKit)
      ensures secHandler == handler && kit == accessTokenKit
      ensures View() == PermState(map[], map[], map[], kit.held, secHandler.tasks)
    {
      applySaveCountMap, saveTaskDequeMap, grantMap := map[], map[], map[];
      secHandler := handler;
      kit := accessTokenKit;
    }

    ghost function View(): PermState
      reads this, secHandler, kit
    {
      PermState(applySaveCountMap, saveTaskDequeMap, grantMap, kit.held, secHandler.tasks)
    }

    /** operator[] of the deque map: a missing key is created. */
    method Deque(t: TokenId) returns (deque: seq<string>)
      modifies this`saveTaskDequeMap
      ensures deque == DequeOf(old(View()), t)
      ensures saveTaskDequeMap == old(saveTaskDequeMap)[t := deque]
    {
      deque := if t in saveTaskDequeMap then saveTaskDequeMap[t] else [];
      saveTaskDequeMap := saveTaskDequeMap[t := deque];
    }

    method GrantTempSavePermission(t: TokenId, clock: nat) returns (res: int)
      modifies this, secHandler
      ensures var name := SaveTaskName(t, clock); View() == PushSave(PostSave(old(View()), t, name), t, name)
      ensures res == SC_OK
    {
      var taskName := SaveTaskName(t, clock);
      secHandler.ProxyPostTask(RevokeSaveCount(t), taskName, DELAY_SAVE_REVOKE);
      var deque := Deque(t);
      saveTaskDequeMap := saveTaskDequeMap[t := deque + [taskName]];
      applySaveCountMap := applySaveCountMap[t := if t in applySaveCountMap then applySaveCountMap[t] + 1 else 1];
      res := SC_OK;
    }

    method RevokeTempSavePermissionCount(t: TokenId)
      modifies this, secHandler
      ensures View() == RevokeSaveOnce(old(View()), t)
    {
      if t !in applySaveCountMap {
        return;
      }
      var deque := Deque(t);
      if |deque| == 0 {
        return;
      }
      secHandler.ProxyRemoveTask(deque[0]);
      saveTaskDequeMap := saveTaskDequeMap[t := deque[1..]];
      applySaveCountMap := applySaveCountMap[t := applySaveCountMap[t] - 1];
      if applySaveCountMap[t] == 0 {
        applySaveCountMap := applySaveCountMap - {t};
        assert applySaveCountMap == old(applySaveCountMap) - {t};
      }
      assert saveTaskDequeMap == old(saveTaskDequeMap)[t := deque[1..]];
    }

    method RevokeTempSavePermission(t: TokenId)
      modifies this, secHandler
      ensures View() == RevokeSaveAll(old(View()), t)
    {
      applySaveCountMap := applySaveCountMap - {t};
      var deque := Deque(t);
      WithoutNone(secHandler.tasks, {});
      assert ElementsOf(deque[..0]) == {};
      for i := 0 to |deque|
        invariant applySaveCountMap == old(applySaveCountMap) - {t} && grantMap == old(grantMap)
        invariant saveTaskDequeMap == old(saveTaskDequeMap)[t := deque]
        invariant secHandler.tasks == Without(old(secHandler.tasks), ElementsOf(deque[..i]))
      {
        secHandler.ProxyRemoveTask(deque[i]);
        WithoutTwice(old(secHandler.tasks), ElementsOf(deque[..i]), {deque[i]});
        assert ElementsOf(deque[..i + 1]) == ElementsOf(deque[..i]) + {deque[i]};
      }
      assert deque[..|deque|] == deque;
      saveTaskDequeMap := saveTaskDequeMap[t := []];
    }

    method VerifySavePermission(t: TokenId) returns (granted: bool)
      ensures granted == VerifySave(View(), t) == (t in applySaveCountMap && applySaveCountMap[t] != 0)
    {
      granted := t in applySaveCountMap && applySaveCountMap[t] != 0;
    }

    method GrantAppPermission(t: TokenId, p: Permission, answer: int) returns (res: int)
      modifies this, kit
      ensures View() == GrantApp(old(View()), t, p, answer) && res == answer
    {
      res := kit.GrantPermission(t, p, answer);
      grantMap := grantMap[t := (if t in grantMap then grantMap[t] else {}) + {p}];
    }

    method RevokeAppPermission(t: TokenId, p: Permission)
      modifies this, kit
      ensures View() == RevokeApp(old(View()), t, p)
    {
      kit.RevokePermission(t, p);
      if t in grantMap {
        grantMap := grantMap[t := grantMap[t] - {p}];
      }
    }

    method RevokeAppPermisionsImmediately(t: TokenId)
      modifies this, kit
      ensures View() == RevokeNow(old(View()), t)
    {
      if t !in grantMap {
        return;
      }
      var todo := grantMap[t];
      while todo != {}
        invariant grantMap == old(grantMap) && todo <= grantMap[t]
        invariant applySaveCountMap == old(applySaveCountMap) && saveTaskDequeMap == old(saveTaskDequeMap)
        invariant kit.held == HeldWithout(old(kit.held), t, grantMap[t] - todo)
        decreases todo
      {
        var p := AnyOf(todo);
        kit.RevokePermission(t, p);
        todo := todo - {p};
      }
      assert grantMap[t] - {} == grantMap[t];
      grantMap := grantMap[t := {}];
    }

    method RevokeAppPermisionsDelayed(t: TokenId)
      modifies secHandler
      ensures View() == PostRevokeAll(old(View()), t)
    {
      secHandler.ProxyPostTask(RevokeAll(t), RevokeAllName(t), DELAY_REVOKE);
    }

    method CancelAppRevokingPermisions(t: TokenId)
      modifies secHandler
      ensures View() == CancelRevokeAll(old(View()), t)
    {
      secHandler.ProxyRemoveTask(RevokeAllName(t));
    }

    method RevokeAppPermissions(t: TokenId)
      modifies this, kit, secHandler
      ensures View() == CancelRevokeAll(RevokeNow(old(View()), t), t)
    {
      RevokeAppPermisionsImmediately(t);
      CancelAppRevokingPermisions(t);
    }

    method GrantTempPermission(t: TokenId, ty: SecCompType, first: Answer, second: Answer) returns (res: int)
      modifies this, kit, secHandler
      ensures (View(), res) == GrantUninterrupted(old(View()), t, ty, Begin, first, second)
    {
      ghost var s0 := View();
      if t == INVALID_TOKEN {
        return SC_SERVICE_ERROR_PERMISSION_OPER_FAIL;
      }
      match ty {
        case Location =>
          res := GrantAppPermission(t, ApproximatelyLocation, first.kitRes);
          if res != SC_OK {
            return SC_SERVICE_ERROR_PERMISSION_OPER_FAIL;
          }
          ghost var s1 := View();
          res := GrantAppPermission(t, PreciseLocation, second.kitRes);
          ghost var s2 := View();
          assert GrantSection(s0, t, ty, Begin, first) == (s1, NeedLocation);
          assert GrantUninterrupted(s0, t, ty, Begin, first, second)
              == GrantUninterrupted(s1, t, ty, NeedLocation, first, second);
          if res != SC_OK {
            assert GrantSection(s1, t, ty, NeedLocation, second) == (s2, NeedRollback);
            assert GrantUninterrupted(s1, t, ty, NeedLocation, first, second)
                == GrantUninterrupted(s2, t, ty, NeedRollback, first, second);
            RevokeAppPermission(t, ApproximatelyLocation);
            return SC_SERVICE_ERROR_PERMISSION_OPER_FAIL;
          }
          return SC_OK;
        case Paste =>
          res := GrantAppPermission(t, SecurePaste, first.kitRes);
          return if res != SC_OK then SC_SERVICE_ERROR_PERMISSION_OPER_FAIL else SC_OK;
        case Save =>
          if first.dlpSandbox {
            return SC_SERVICE_ERROR_PERMISSION_OPER_FAIL;
          }
          ghost var name := SaveTaskName(t, first.clock);
          assert GrantUninterrupted(s0, t, ty, Begin, first, second)
              == GrantUninterrupted(PostSave(s0, t, name), t, ty, NeedPush(name), first, second);
          res := GrantTempSavePermission(t, first.clock);
        case Unknown =>
          res := SC_SERVICE_ERROR_PERMISSION_OPER_FAIL;
      }
    }
  }
}
