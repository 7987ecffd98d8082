/**
 The first-use dialog: which components wait for one to close, which tokens have
 already been shown the save dialog, and how that is kept on disk.
 */
module FirstUseDialog {
  import opened Types
  import opened EventHandler
  import opened Entity
  import opened Json
  import opened PermManager
  import opened TaskNames

  /** An unsigned 64-bit set of flags; bit 0 stands for the location button, bit 1 for the save button. */
  type Flags = n: nat | n < UINT64_RANGE

  predicate HasSaveBit(f: Flags) {
    f / 2 % 2 == 1
  }

  function OrSaveBit(f: Flags): Flags {
    if HasSaveBit(f) then f else f + 2
  }

  /** Every flag of `f` is a flag of `g`, and they differ at most in the save bit. */
  predicate FlagsKept(f: Flags, g: Flags) {
    f % 2 == g % 2 && f / 4 == g / 4 && (HasSaveBit(f) ==> HasSaveBit(g))
  }

  const ON_DIALOG_CLOSED := 0

  /** The owner of a waiting component; it never changes while the component exists. */
  datatype Owner = Owner(pid: int, token: TokenId)

  datatype DialogState = DialogState(firstUse: map<TokenId, Flags>, waits: map<int, Owner>)

  /** What the caller passed and what the window and ability managers answered. */
  datatype DialogAnswer = DialogAnswer(callerTokenNull: bool, callbackNull: bool, displayOk: bool, startRes: int)

  predicate SaveBitSet(d: DialogState, t: TokenId) {
    t in d.firstUse && HasSaveBit(d.firstUse[t])
  }

  /** A dialog that cannot be placed on a display is not started, but the component stays in the wait map. */
  function StartDialog(d: DialogState, scId: int, owner: Owner, ty: SecCompType, a: DialogAnswer)
    : (r: (DialogState, bool))
  {
    if ty != Location && ty != Save then (d, false)
    else if !a.displayOk then (d.(waits := d.waits[scId := owner]), false)
    else if a.startRes != 0 then (d.(waits := d.waits - {scId}), false)
    else (d.(waits := d.waits[scId := owner]), true)
  }

  function Notify(d: DialogState, scId: int, owner: Owner, ty: SecCompType, a: DialogAnswer): (r: (DialogState, int)) {
    if a.callerTokenNull || a.callbackNull then (d, SC_SERVICE_ERROR_VALUE_INVALID)
    else if ty != Location && ty != Save then (d, SC_OK)
    else if ty == Save && SaveBitSet(d, owner.token) then (d, SC_OK)
    else
      var (d', started) := StartDialog(d, scId, owner, ty, a);
      (d', if started then SC_SERVICE_ERROR_WAIT_FOR_DIALOG_CLOSE else SC_SERVICE_ERROR_START_FIRST_USE_DIALOG_FAILED)
  }

  function SetFirstUse(d: DialogState, t: TokenId, ty: SecCompType): DialogState {
    if ty != Save then d
    else d.(firstUse := d.firstUse[t := OrSaveBit(if t in d.firstUse then d.firstUse[t] else 0)])
  }

  /**
   What a closed dialog changes after its grant gave `res`: the component no longer
   waits, and after a successful grant its bit is set and saving is posted.
   */
  function DialogCloses(d: DialogState, scId: int, t: TokenId, ty: SecCompType, res: int)
    : (r: (DialogState, seq<Task>))
  {
    var waiting := d.(waits := d.waits - {scId});
    if res != SC_OK then (waiting, [])
    else (SetFirstUse(waiting, t, ty), if ty == Save then [Task("", 0, SaveRecord)] else [])
  }

  function RemoveWaits(d: DialogState, pid: int): DialogState {
    d.(waits := map k | k in d.waits && d.waits[k].pid != pid :: d.waits[k])
  }

  /** Bits are only ever added. */
  ghost predicate BitsKept(before: map<TokenId, Flags>, after: map<TokenId, Flags>) {
    forall t :: t in before ==> t in after && FlagsKept(before[t], after[t])
  }

  lemma OrKeepsFlags(f: Flags)
    ensures FlagsKept(f, OrSaveBit(f)) && HasSaveBit(OrSaveBit(f))
  {
  }

  lemma SetFirstUseKeepsBits(d: DialogState, t: TokenId, ty: SecCompType)
    ensures BitsKept(d.firstUse, SetFirstUse(d, t, ty).firstUse)
    ensures ty == Save ==> SaveBitSet(SetFirstUse(d, t, ty), t)
    ensures forall u: TokenId :: u != t ==> SaveBitSet(SetFirstUse(d, t, ty), u) == SaveBitSet(d, u)
  {
    OrKeepsFlags(if t in d.firstUse then d.firstUse[t] else 0);
  }

  /**
   A click goes on without a dialog exactly for a paste component or a save
   component whose token has the bit; a failed start leaves the component
   waiting only when no display was found, or when it was waiting before and is now not.
   */
  lemma NotifyMeaning(d: DialogState, scId: int, owner: Owner, ty: SecCompType, a: DialogAnswer)
    ensures var (d', res) := Notify(d, scId, owner, ty, a);
            var bitSet := owner.token in d.firstUse && d.firstUse[owner.token] / 2 % 2 == 1;
            && d'.firstUse == d.firstUse
            && if a.callerTokenNull || a.callbackNull then
                 d' == d && res == SC_SERVICE_ERROR_VALUE_INVALID
               else if (ty != Location && ty != Save) || (ty == Save && bitSet) then
                 d' == d && res == SC_OK
               else if a.displayOk && a.startRes == 0 then
                 d'.waits == d.waits[scId := owner] && res == SC_SERVICE_ERROR_WAIT_FOR_DIALOG_CLOSE
               else
                 && res == SC_SERVICE_ERROR_START_FIRST_USE_DIALOG_FAILED
                 && d'.waits == if a.displayOk then d.waits - {scId} else d.waits[scId := owner]
  {
  }

  // The record on disk

  const FIRST_USE_RECORD_TAG := "FirstUseRecord"
  const TOKEN_ID_TAG := "TokenId"
  const COMP_TYPE_TAG := "CompType"
  const MAX_CFG_FILE_SIZE := 100 * 1024

  /** A stored record file: its size in bytes and its content, if the content is JSON at all. */
  datatype RecordFile = NoFile | RecordFile(size: nat, content: Option<Json>)

  function ParseRecord(j: Json): Option<(TokenId, Flags)> {
    var id, ty := Find(j, TOKEN_ID_TAG), Find(j, COMP_TYPE_TAG);
    if id.None? || !IsNumber(id.value) then None
    else
      var token := ToUnsigned(id.value, 0x1_0000_0000);
      if token == INVALID_TOKEN then None
      else if ty.None? || !IsNumber(ty.value) then None
      else Some((token, ToUnsigned(ty.value, UINT64_RANGE)))
  }

  function LoadRecord(m: map<TokenId, Flags>, j: Json): map<TokenId, Flags> {
    var r := ParseRecord(j);
    if r.Some? then m[r.value.0 := r.value.1] else m
  }

  function LoadRecords(m: map<TokenId, Flags>, items: seq<Json>): map<TokenId, Flags> {
    if items == [] then m else LoadRecord(LoadRecords(m, items[..|items| - 1]), items[|items| - 1])
  }

  function Load(m: map<TokenId, Flags>, file: RecordFile): map<TokenId, Flags> {
    if file.NoFile? || file.size > MAX_CFG_FILE_SIZE || file.content.None? then m
    else
      var list := Find(file.content.value, FIRST_USE_RECORD_TAG);
      if list.None? || !list.value.JArray? then m else LoadRecords(m, list.value.items)
  }

  function RecordJson(t: TokenId, bits: Flags): Json {
    JObject(map[TOKEN_ID_TAG := JInt(t), COMP_TYPE_TAG := JInt(bits)])
  }

  /** The records of the tokens in `order` that still exist. A list nothing was added to is null, not an array. */
  function RecordItems(m: map<TokenId, Flags>, order: seq<TokenId>, exists_: set<TokenId>): seq<Json>
    requires forall t :: t in order ==> t in m
  {
    if order == [] then []
    else
      var t := order[|order| - 1];
      var before := RecordItems(m, order[..|order| - 1], exists_);
      if t in exists_ then before + [RecordJson(t, m[t])] else before
  }

  function RecordContent(items: seq<Json>): Json {
    JObject(map[FIRST_USE_RECORD_TAG := if items == [] then JNull else JArray(items)])
  }

  /** The tags of the record file, written and read. */
  lemma RecordTags(t: TokenId, bits: Flags, items: seq<Json>)
    ensures Find(RecordJson(t, bits), "TokenId") == Some(JInt(t))
    ensures Find(RecordJson(t, bits), "CompType") == Some(JInt(bits))
    ensures Find(RecordContent(items), "FirstUseRecord") == Some(if items == [] then JNull else JArray(items))
  {
  }

  /** A record is read exactly if both its tags hold numbers and the token is not 0 modulo 2^32. */
  lemma RecordRead(j: Json)
    ensures var (id, bits) := (Find(j, "TokenId"), Find(j, "CompType"));
            ParseRecord(j) ==
              if id.Some? && IsNumber(id.value) && bits.Some? && IsNumber(bits.value)
                 && NumberOf(id.value) % 0x1_0000_0000 != 0 then
                Some((NumberOf(id.value) % 0x1_0000_0000, NumberOf(bits.value) % 0x1_0000_0000_0000_0000))
              else None
  {
  }

  ghost predicate ListsKeys(order: seq<TokenId>, m: map<TokenId, Flags>) {
    && (forall t :: t in order <==> t in m)
    && forall i, j :: 0 <= i < j < |order| ==> order[i] != order[j]
  }

  function Survivors(m: map<TokenId, Flags>, exists_: set<TokenId>): map<TokenId, Flags> {
    map t | t in m && t in exists_ && t != INVALID_TOKEN :: m[t]
  }

  /** `m` has nothing but entries of `before` and possibly `k := sc`. */
  predicate AtMostAdds(m: map<int, SecCompEntity>, before: map<int, SecCompEntity>, k: int, sc: SecCompEntity) {
    forall j :: j in m ==> (j == k && m[j] == sc) || (j in before && m[j] == before[j])
  }

  lemma RecordReadsBack(t: TokenId, bits: Flags)
    ensures ParseRecord(RecordJson(t, bits)) == if t == INVALID_TOKEN then None else Some((t, bits))
  {
  }

  lemma {:induction false} ItemsReadBack(m: map<TokenId, Flags>, order: seq<TokenId>, exists_: set<TokenId>)
    requires forall t :: t in order ==> t in m
    ensures LoadRecords(map[], RecordItems(m, order, exists_))
         == map t | t in m && t in order && t in exists_ && t != INVALID_TOKEN :: m[t]
  {
    if order != [] {
      var n := |order| - 1;
      var t, before := order[n], order[..n];
      ItemsReadBack(m, before, exists_);
      var items := RecordItems(m, before, exists_);
      assert order == before + [t];
      if t in exists_ {
        RecordReadsBack(t, m[t]);
        assert (items + [RecordJson(t, m[t])])[..|items|] == items;
      }
    }
  }

  // The size of the file

  function RecordText(t: TokenId, bits: Flags): string {
    "{\"CompType\":" + Decimal(bits) + ",\"TokenId\":" + Decimal(t) + "}"
  }

  /** The records as text, with commas between them. */
  function RecordsText(m: map<TokenId, Flags>, order: seq<TokenId>, exists_: set<TokenId>): string
    requires forall t :: t in order ==> t in m
  {
    if order == [] then []
    else
      var t, before := order[|order| - 1], order[..|order| - 1];
      var text := RecordsText(m, before, exists_);
      if t !in exists_ then text
      else text + (if RecordItems(m, before, exists_) == [] then "" else ",") + RecordText(t, m[t])
  }

  /** What is written to the file: the record without any white space. */
  function FileText(m: map<TokenId, Flags>, order: seq<TokenId>, exists_: set<TokenId>): string
    requires forall t :: t in order ==> t in m
  {
    if RecordItems(m, order, exists_) == [] then "{\"FirstUseRecord\":null}"
    else "{\"FirstUseRecord\":[" + RecordsText(m, order, exists_) + "]}"
  }

  lemma RecordWidth(t: TokenId, bits: Flags)
    ensures 26 <= |RecordText(t, bits)| <= 54
  {
    DecimalWidth(t, 10);
    DecimalWidth(bits, 20);
  }

  lemma {:induction false} RecordsWidth(m: map<TokenId, Flags>, order: seq<TokenId>, exists_: set<TokenId>)
    requires forall t :: t in order ==> t in m
    ensures var n := |RecordItems(m, order, exists_)|;
            if n == 0 then RecordsText(m, order, exists_) == []
            else 27 * n - 1 <= |RecordsText(m, order, exists_)| <= 55 * n - 1
  {
    if order != [] {
      var t := order[|order| - 1];
      RecordsWidth(m, order[..|order| - 1], exists_);
      RecordWidth(t, m[t]);
    }
  }

  /** Up to 1861 records always fit into a file that will be loaded; 3792 and more never do. */
  lemma FileWidth(m: map<TokenId, Flags>, order: seq<TokenId>, exists_: set<TokenId>)
    requires forall t :: t in order ==> t in m
    ensures var n := |RecordItems(m, order, exists_)|;
            && (n <= 1861 ==> |FileText(m, order, exists_)| <= MAX_CFG_FILE_SIZE)
            && (n >= 3792 ==> |FileText(m, order, exists_)| > MAX_CFG_FILE_SIZE)
  {
    RecordsWidth(m, order, exists_);
  }

  function SavedFile(m: map<TokenId, Flags>, order: seq<TokenId>, exists_: set<TokenId>): RecordFile
    requires forall t :: t in order ==> t in m
  {
    RecordFile(|FileText(m, order, exists_)|, Some(RecordContent(RecordItems(m, order, exists_))))
  }

  /**
   Loading a saved record into an empty map gives back the saved entries of the
   tokens that still exist, whatever order the map was walked in, exactly when the
   text is not too long or there was nothing to give back.
   */
  lemma RecordRoundTrip(m: map<TokenId, Flags>, order: seq<TokenId>, exists_: set<TokenId>)
    requires ListsKeys(order, m)
    ensures Load(map[], SavedFile(m, order, exists_)) == Survivors(m, exists_)
       <==> |FileText(m, order, exists_)| <= MAX_CFG_FILE_SIZE || Survivors(m, exists_) == map[]
  {
    ItemsReadBack(m, order, exists_);
    var items := RecordItems(m, order, exists_);
    assert Find(RecordContent(items), FIRST_USE_RECORD_TAG) == Some(if items == [] then JNull else JArray(items));
    assert LoadRecords(map[], items) == Survivors(m, exists_);
    assert LoadRecords(map[], []) == map[];
  }

  class FirstUseDialog {
    var firstUseMap: map<TokenId, Flags>
    var dialogWaitMap: map<int, SecCompEntity>
    const secHandler: SecEventHandler

    constructor (handler: SecEventHandler, file: RecordFile)
      ensures secHandler == handler
      ensures View() == DialogState(Load(map[], file), map[])
    {
      firstUseMap, dialogWaitMap := map[], map[];
      secHandler := handler;
      new;
      LoadFirstUseRecord(file);
    }

    ghost function View(): DialogState
      reads this
    {
      DialogState(firstUseMap, map k | k in dialogWaitMap :: Owner(dialogWaitMap[k].pid, dialogWaitMap[k].token))
    }

    method ParseRecords(j: Json)
      modifies this`firstUseMap
      ensures var list := Find(j, FIRST_USE_RECORD_TAG);
              firstUseMap == if list.None? || !list.value.JArray? then old(firstUseMap)
                             else LoadRecords(old(firstUseMap), list.value.items)
    {
      var list := Find(j, FIRST_USE_RECORD_TAG);
      if list.None? || !list.value.JArray? {
        return;
      }
      var items := list.value.items;
      for i := 0 to |items|
        invariant firstUseMap == LoadRecords(old(firstUseMap), items[..i])
      {
        assert items[..i + 1][..i] == items[..i];
        var r := ParseRecord(items[i]);
        if r.None? {
          continue;
        }
        firstUseMap := firstUseMap[r.value.0 := r.value.1];
      }
      assert items[..|items|] == items;
    }

    method LoadFirstUseRecord(file: RecordFile)
      modifies this`firstUseMap
      ensures firstUseMap == Load(old(firstUseMap), file)
    {
      if file.NoFile? || file.size > MAX_CFG_FILE_SIZE || file.content.None? {
        return;
      }
      ParseRecords(file.content.value);
    }

    /** `order` is the order in which the hash map happens to be walked. */
    method SaveFirstUseRecord(order: seq<TokenId>, exists_: set<TokenId>) returns (content: Json)
      requires ListsKeys(order, firstUseMap)
      ensures content == RecordContent(RecordItems(firstUseMap, order, exists_))
    {
      var records := JNull;
      for i := 0 to |order|
        invariant var items := RecordItems(firstUseMap, order[..i], exists_);
                  records == if items == [] then JNull else JArray(items)
      {
        assert order[..i + 1][..i] == order[..i];
        var id := order[i];
        if id !in exists_ {
          continue;
        }
        var record := RecordJson(id, firstUseMap[id]);
        records := JArray((if records.JArray? then records.items else []) + [record]);
      }
      assert order[..|order|] == order;
      content := JObject(map[FIRST_USE_RECORD_TAG := records]);
    }

    method RemoveDialogWaitEntitys(pid: int)
      modifies this`dialogWaitMap
      ensures View() == RemoveWaits(old(View()), pid)
      ensures dialogWaitMap.Items <= old(dialogWaitMap).Items
    {
      ghost var before := dialogWaitMap;
      var todo := dialogWaitMap.Keys;
      while todo != {}
        invariant todo <= before.Keys
        invariant dialogWaitMap == map k | k in before && (k in todo || before[k].pid != pid) :: before[k]
        decreases todo
      {
        var scId := AnyOf(todo);
        todo := todo - {scId};
        if dialogWaitMap[scId].pid == pid {
          dialogWaitMap := dialogWaitMap - {scId};
        }
      }
    }

    /** The component leaves the map whether or not the grant succeeds. */
    method GrantDialogWaitEntity(scId: int, manager: SecCompPermManager, first: Answer, second: Answer)
      returns (res: int)
      modifies this`dialogWaitMap, manager, manager.kit, manager.secHandler
      modifies if scId in dialogWaitMap then {dialogWaitMap[scId]} else {}
      ensures View() == old(View()).(waits := old(View()).waits - {scId})
      ensures scId in old(dialogWaitMap) ==>
                var sc := old(dialogWaitMap[scId]);
                && sc.View() == old(sc.View()).(isGrant := true)
                && (manager.View(), res)
                   == GrantUninterrupted(old(manager.View()), sc.token, old(sc.componentInfo.ty), Begin, first, second)
      ensures scId !in old(dialogWaitMap) ==>
                res == SC_SERVICE_ERROR_COMPONENT_NOT_EXIST && manager.View() == old(manager.View())
    {
      ghost var before := View();
      if scId !in dialogWaitMap {
        assert before.waits - {scId} == before.waits;
        return SC_SERVICE_ERROR_COMPONENT_NOT_EXIST;
      }
      var sc := dialogWaitMap[scId];
      res := sc.GrantTempPermission(manager, first, second);
      dialogWaitMap := dialogWaitMap - {scId};
      assert View().waits == before.waits - {scId};
    }

    method StartDialogAbility(sc: SecCompEntity, a: DialogAnswer) returns (started: bool)
      modifies this`dialogWaitMap
      ensures (View(), started) == StartDialog(old(View()), sc.scId, Owner(sc.pid, sc.token), sc.componentInfo.ty, a)
      ensures AtMostAdds(dialogWaitMap, old(dialogWaitMap), sc.scId, sc)
    {
      if sc.componentInfo.ty != Location && sc.componentInfo.ty != Save {
        return false;
      }
      ghost var before := View();
      dialogWaitMap := dialogWaitMap[sc.scId := sc];
      assert View().waits == before.waits[sc.scId := Owner(sc.pid, sc.token)];
      if !a.displayOk {
        return false;
      }
      if a.startRes != 0 {
        dialogWaitMap := dialogWaitMap - {sc.scId};
        assert View().waits == before.waits - {sc.scId};
        return false;
      }
      started := true;
    }

    method NotifyFirstUseDialog(sc: SecCompEntity, a: DialogAnswer) returns (res: int)
      modifies this`dialogWaitMap
      ensures (View(), res) == Notify(old(View()), sc.scId, Owner(sc.pid, sc.token), sc.componentInfo.ty, a)
      ensures AtMostAdds(dialogWaitMap, old(dialogWaitMap), sc.scId, sc)
    {
      if a.callerTokenNull || a.callbackNull {
        return SC_SERVICE_ERROR_VALUE_INVALID;
      }
      if sc.componentInfo.ty != Location && sc.componentInfo.ty != Save {
        return SC_OK;
      }
      if sc.token !in firstUseMap {
        var started := StartDialogAbility(sc, a);
        return if started then SC_SERVICE_ERROR_WAIT_FOR_DIALOG_CLOSE
          else SC_SERVICE_ERROR_START_FIRST_USE_DIALOG_FAILED;
      }
      if sc.componentInfo.ty == Save && HasSaveBit(firstUseMap[sc.token]) {
        return SC_OK;
      }
      var started := StartDialogAbility(sc, a);
      res := if started then SC_SERVICE_ERROR_WAIT_FOR_DIALOG_CLOSE else SC_SERVICE_ERROR_START_FIRST_USE_DIALOG_FAILED;
    }

    /** The record is saved later, by a task without a name or a delay. */
    method SetFirstUseMap(sc: SecCompEntity) returns (ok: bool)
      modifies this`firstUseMap, secHandler
      ensures View() == SetFirstUse(old(View()), sc.token, sc.componentInfo.ty)
      ensures ok == (sc.componentInfo.ty == Location || sc.componentInfo.ty == Save)
      ensures secHandler.tasks == old(secHandler.tasks)
                + (if sc.componentInfo.ty == Save then [Task("", 0, SaveRecord)] else [])
    {
      if sc.componentInfo.ty == Location {
        return true;
      }
      if sc.componentInfo.ty != Save {
        return false;
      }
      firstUseMap := firstUseMap[sc.token := OrSaveBit(if sc.token in firstUseMap then firstUseMap[sc.token] else 0)];
      secHandler.ProxyPostTask(SaveRecord, "", 0);
      ok := true;
    }

    /** The callback of one dialog keeps the component the dialog was shown for; `reported` is what the caller hears. */
    method OnDialogClosed(scId: int, sc: SecCompEntity, result: int,
        manager: SecCompPermManager, first: Answer, second: Answer)
      returns (reported: Option<int>)
      requires manager.secHandler == secHandler
      requires scId in dialogWaitMap ==> dialogWaitMap[scId] == sc
      modifies this`dialogWaitMap, this`firstUseMap, sc, manager, manager.kit, secHandler
      ensures result != ON_DIALOG_CLOSED || scId !in old(dialogWaitMap) ==>
                && View() == old(View()) && manager.View() == old(manager.View())
                && reported == if result == ON_DIALOG_CLOSED then None else Some(result)
      ensures result == ON_DIALOG_CLOSED && scId in old(dialogWaitMap) ==>
                var ty := old(sc.componentInfo.ty);
                var (perm, res) := GrantUninterrupted(old(manager.View()), sc.token, ty, Begin, first, second);
                var (closed, tasks) := DialogCloses(old(View()), scId, sc.token, ty, res);
                && sc.View() == old(sc.View()).(isGrant := true) && View() == closed
                && manager.View() == perm.(tasks := perm.tasks + tasks)
                && reported == (if res == SC_OK && ty != Location && ty != Save then None else Some(res))
    {
      reported := Some(result);
      if result == ON_DIALOG_CLOSED {
        ghost var before := View();
        GrantResults(manager.View(), sc.token, sc.componentInfo.ty, Begin, first, second);
        var grantRes := GrantDialogWaitEntity(scId, manager, first, second);
        if scId !in before.waits {
          assert before.waits - {scId} == before.waits;
        }
        if grantRes == SC_SERVICE_ERROR_COMPONENT_NOT_EXIST {
          return None;
        }
        if grantRes == SC_OK {
          var ok := SetFirstUseMap(sc);
          if !ok {
            return None;
          }
        }
        reported := Some(grantRes);
      }
    }
  }
}
