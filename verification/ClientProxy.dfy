/**
 How the client library finds the service: callers of GetProxy, the loader's
 callbacks and death notices interleave. Each section under a mutex is one step;
 the proxy mutex is held through a whole GetProxy and a whole death notice.
 */
module ClientProxy {
  import opened Types

  /** A remote object, and an observer of its death, by identity. */
  type Remote = int
  type Observer = nat

  datatype ClientState = ClientState(
    proxy: Option<Remote>, observer: Option<Observer>, ready: bool, loaded: Option<Remote>, needLoad: bool)

  const SENDREQ_FAIL_ERR := 32
  const BR_DEAD_REPLY := 29189
  const BR_FAILED_REPLY := 29201

  predicate Retries(res: int) {
    res in {SC_SERVICE_ERROR_SERVICE_NOT_EXIST, BR_DEAD_REPLY, BR_FAILED_REPLY, SENDREQ_FAIL_ERR}
  }

  /** What the allocator, the remote object and the cast answer while a proxy is installed. */
  datatype InstallAnswer = InstallAnswer(allocOk: bool, addOk: bool, castOk: bool)

  /** Sections of GetProxy after the service was found missing. */
  datatype GetPc = AtReset | AtRequest | AtWait | AtTake | AtInstall(remote: Option<Remote>)

  /** Who holds proxyMutex_. */
  datatype Holder = NoOne | InGet(call: int, pc: GetPc) | DeathReady | DeathNeedLoad

  /** A call: registration sends requests; any other call only asks for the proxy. */
  datatype CallPc =
    | Getting(doLoad: bool)
    | Sending
    | Waiting(res: int)
    | GettingAgain(res: int)
    | Finished

  datatype Call = Call(register: bool, pc: CallPc, results: seq<int>)

  /**
   What an observer sees. A handled death notice drops whatever the proxy is; `own`
   says that the notice came from the proxy's observer.
   */
  datatype Event =
    | ResetBy(call: int)
    | Delivered(remote: Remote)
    | InstalledByLoad(remote: Remote, call: int)
    | Sent(call: int, res: int)
    | CastFailed(observer: Observer, remote: Remote)
    | Handled(observer: Observer, died: Remote, dropped: Option<Remote>, own: bool)

  /**
   `watching` are the death observers registered on live objects, `notices` those
   whose object died and whose notice is on its way.
   */
  datatype World = World(
    c: ClientState,
    holder: Holder,
    calls: map<int, Call>,
    watching: set<(Observer, Remote)>,
    notices: set<(Observer, Remote)>,
    dead: set<Remote>,
    nextObserver: nat,
    log: seq<Event>)

  datatype Label =
    | Begin(call: int, register: bool, doLoad: bool)
    | Lookup(call: int, found: Option<Remote>, answer: InstallAnswer)
    | Reset
    | RequestLoad(ok: bool)
    | WaitEnds
    | Take
    | InstallLoaded(answer: InstallAnswer)
    | LoadSuccess(remote: Remote)
    | ClearNeedLoad
    | LoadFail
    | ObjectDies(remote: Remote)
    | Notice(observer: Observer, remote: Remote)
    | NoticeReady
    | NoticeNeedLoad
    | TryRegister(call: int, serialised: bool, res: int)
    | WaitRetry(call: int, seen: bool)

  ghost predicate Init(w: World) {
    && w.c == ClientState(None, None, false, None, false)
    && w.holder == NoOne && w.calls == map[] && w.watching == {} && w.notices == {} && w.log == []
  }

  /** A null cast leaves the observer registered. */
  function Install(w: World, r: Remote, a: InstallAnswer): World {
    if !a.allocOk then w
    else
      var o := w.nextObserver;
      var w1 := w.(nextObserver := o + 1);
      if !a.addOk || r in w.dead then w1
      else if !a.castOk then w1.(watching := w.watching + {(o, r)}, log := w.log + [CastFailed(o, r)])
      else if w.c.proxy.Some? then w1
      else w1.(watching := w.watching + {(o, r)}, c := w.c.(proxy := Some(r), observer := Some(o)))
  }

  predicate IsGetting(w: World, k: int) {
    k in w.calls && (w.calls[k].pc.Getting? || w.calls[k].pc.GettingAgain?)
  }

  predicate DoesLoad(w: World, k: int) {
    k in w.calls && match w.calls[k].pc
                    case Getting(doLoad) => doLoad
                    case GettingAgain(_) => true
                    case _ => false
  }

  /** GetProxy returns whatever the proxy now is. */
  function ReturnProxy(w: World, k: int): World {
    if k !in w.calls then w.(holder := NoOne)
    else
      var call := w.calls[k];
      var next := if !call.register || w.c.proxy.None? then Finished else Sending;
      w.(holder := NoOne, calls := w.calls[k := call.(pc := next)])
  }

  predicate Enabled(w: World, l: Label) {
    match l
    case Begin(k, _, _) => k !in w.calls
    case Lookup(k, _, _) => w.holder == NoOne && IsGetting(w, k)
    case Reset => w.holder.InGet? && w.holder.pc == AtReset
    case RequestLoad(_) => w.holder.InGet? && w.holder.pc == AtRequest
    case WaitEnds => w.holder.InGet? && w.holder.pc == AtWait
    case Take => w.holder.InGet? && w.holder.pc == AtTake
    case InstallLoaded(_) => w.holder.InGet? && w.holder.pc.AtInstall?
    case LoadSuccess(_) => true
    case ClearNeedLoad => true
    case LoadFail => true
    case ObjectDies(_) => true
    case Notice(o, r) => w.holder == NoOne && (o, r) in w.notices
    case NoticeReady => w.holder == DeathReady
    case NoticeNeedLoad => w.holder == DeathNeedLoad
    case TryRegister(k, _, _) => k in w.calls && w.calls[k].pc.Sending?
    case WaitRetry(k, seen) => k in w.calls && w.calls[k].pc.Waiting? && (seen ==> w.c.needLoad)
  }

  function DoLookup(w: World, k: int, found: Option<Remote>, a: InstallAnswer): World {
    if w.c.proxy.Some? then ReturnProxy(w, k)
    else if found.Some? then ReturnProxy(Install(w, found.value, a), k)
    else if !DoesLoad(w, k) then ReturnProxy(w, k)
    else w.(holder := InGet(k, AtReset))
  }

  function DoInstallLoaded(w: World, a: InstallAnswer): World
    requires w.holder.InGet? && w.holder.pc.AtInstall?
  {
    var (k, remote) := (w.holder.call, w.holder.pc.remote);
    if remote.None? || w.c.proxy.Some? then ReturnProxy(w, k)
    else
      var w1 := Install(w, remote.value, a);
      ReturnProxy(if w1.c.proxy.Some? then w1.(log := w.log + [InstalledByLoad(remote.value, k)]) else w1, k)
  }

  /** The proxy's own observer, taken off when the proxy is dropped. */
  function OwnObserver(w: World): set<(Observer, Remote)> {
    if w.c.proxy.Some? && w.c.observer.Some? then {(w.c.observer.value, w.c.proxy.value)} else {}
  }

  /** The notice does not look at which object died. */
  function DoNotice(w: World, o: Observer, r: Remote): World {
    w.(notices := w.notices - {(o, r)}, watching := w.watching - OwnObserver(w),
       c := w.c.(proxy := None, observer := None), holder := DeathReady,
       log := w.log + [Handled(o, r, w.c.proxy, (o, r) in OwnObserver(w))])
  }

  /** The first request's result decides whether to wait for another try. */
  function AfterRequest(call: Call, res: int): Call {
    call.(results := call.results + [res],
          pc := if call.results == [] && Retries(res) then Waiting(res) else Finished)
  }

  /** Serialising may fail before anything is sent. */
  function DoTryRegister(w: World, k: int, serialised: bool, res: int): World
    requires k in w.calls
  {
    if !serialised then w.(calls := w.calls[k := w.calls[k].(pc := Finished)])
    else w.(calls := w.calls[k := AfterRequest(w.calls[k], res)], log := w.log + [Sent(k, res)])
  }

  function Exec(w: World, l: Label): World
    requires Enabled(w, l)
  {
    match l
    case Begin(k, register, doLoad) => w.(calls := w.calls[k := Call(register, Getting(register || doLoad), [])])
    case Lookup(k, found, a) => DoLookup(w, k, found, a)
    case Reset =>
      w.(c := w.c.(ready := false, loaded := None), holder := InGet(w.holder.call, AtRequest),
         log := w.log + [ResetBy(w.holder.call)])
    case RequestLoad(ok) => w.(holder := InGet(w.holder.call, if ok then AtWait else AtTake))
    case WaitEnds => w.(holder := InGet(w.holder.call, AtTake))
    case Take => w.(c := w.c.(loaded := None), holder := InGet(w.holder.call, AtInstall(w.c.loaded)))
    case InstallLoaded(a) => DoInstallLoaded(w, a)
    case LoadSuccess(r) => w.(c := w.c.(loaded := Some(r), ready := true), log := w.log + [Delivered(r)])
    case ClearNeedLoad => w.(c := w.c.(needLoad := false))
    case LoadFail => w.(c := w.c.(loaded := None, ready := false))
    case ObjectDies(r) =>
      var gone := set x | x in w.watching && x.1 == r;
      w.(dead := w.dead + {r}, watching := w.watching - gone, notices := w.notices + gone)
    case Notice(o, r) => DoNotice(w, o, r)
    case NoticeReady => w.(c := w.c.(ready := false), holder := DeathNeedLoad)
    case NoticeNeedLoad => w.(c := w.c.(needLoad := true), holder := NoOne)
    case TryRegister(k, serialised, res) => DoTryRegister(w, k, serialised, res)
    case WaitRetry(k, seen) =>
      var call := w.calls[k];
      w.(calls := w.calls[k := call.(pc := if seen then GettingAgain(call.pc.res) else Finished)])
  }

  ghost predicate Step(w: World, l: Label, w': World) {
    Enabled(w, l) && w' == Exec(w, l)
  }

  ghost predicate StepAt(worlds: seq<World>, labels: seq<Label>, i: nat) {
    i < |labels| && i + 1 < |worlds| && Step(worlds[i], labels[i], worlds[i + 1])
  }

  ghost predicate IsRun(worlds: seq<World>, labels: seq<Label>) {
    && |worlds| == |labels| + 1 && Init(worlds[0])
    && forall i :: 0 <= i < |labels| ==> StepAt(worlds, labels, i)
  }

  // Every installed proxy is watched

  ghost predicate Mine(w: World, x: (Observer, Remote)) {
    w.c.observer == Some(x.0) && w.c.proxy == Some(x.1)
  }

  /** The proxy is set exactly when its observer is; that observer is registered on it, or its death is on the way. */
  ghost predicate Watched(w: World) {
    && (w.c.proxy.Some? <==> w.c.observer.Some?)
    && (w.c.proxy.Some? ==> (w.c.observer.value, w.c.proxy.value) in w.watching + w.notices)
    && (w.c.observer.Some? ==> w.c.observer.value < w.nextObserver)
    && (forall x :: x in w.watching ==> x.1 !in w.dead)
    && (forall x :: x in w.notices ==> x.1 in w.dead)
    && (forall x :: x in w.watching + w.notices ==> x.0 < w.nextObserver)
    && (forall x :: x in w.watching + w.notices && w.c.observer == Some(x.0) ==> w.c.proxy == Some(x.1))
  }

  lemma InstallWatched(w: World, r: Remote, a: InstallAnswer)
    requires Watched(w)
    ensures Watched(Install(w, r, a))
  {
  }

  lemma ReturnWatched(w: World, k: int)
    requires Watched(w)
    ensures Watched(ReturnProxy(w, k))
  {
  }

  lemma NoticeWatched(w: World, o: Observer, r: Remote)
    requires Watched(w) && Enabled(w, Notice(o, r))
    ensures Watched(DoNotice(w, o, r))
  {
  }

  lemma DiesWatched(w: World, r: Remote)
    requires Watched(w)
    ensures Watched(Exec(w, ObjectDies(r)))
  {
  }

  lemma LookupWatched(w: World, k: int, found: Option<Remote>, a: InstallAnswer)
    requires Watched(w)
    ensures Watched(DoLookup(w, k, found, a))
  {
    ReturnWatched(w, k);
    if found.Some? {
      InstallWatched(w, found.value, a);
      ReturnWatched(Install(w, found.value, a), k);
    }
  }

  lemma InstallLoadedWatched(w: World, a: InstallAnswer)
    requires Watched(w) && Enabled(w, InstallLoaded(a))
    ensures Watched(DoInstallLoaded(w, a))
  {
    var (k, remote) := (w.holder.call, w.holder.pc.remote);
    ReturnWatched(w, k);
    if remote.Some? {
      var w1 := Install(w, remote.value, a);
      InstallWatched(w, remote.value, a);
      ReturnWatched(w1, k);
      ReturnWatched(w1.(log := w.log + [InstalledByLoad(remote.value, k)]), k);
    }
  }

  lemma StepWatched(w: World, l: Label)
    requires Watched(w) && Enabled(w, l)
    ensures Watched(Exec(w, l))
  {
    if l.Lookup? {
      LookupWatched(w, l.call, l.found, l.answer);
    } else if l.InstallLoaded? {
      InstallLoadedWatched(w, l.answer);
    } else if l.Notice? {
      NoticeWatched(w, l.observer, l.remote);
    } else if l.ObjectDies? {
      DiesWatched(w, l.remote);
    }
  }

  // Objects taken from the loader

  /** `r` was delivered and nothing was reset since. */
  predicate FreshlyDelivered(log: seq<Event>, r: Remote) {
    if log == [] then false
    else
      var e := log[|log| - 1];
      e == Delivered(r) || (!e.ResetBy? && FreshlyDelivered(log[..|log| - 1], r))
  }

  function LastReset(log: seq<Event>): Option<int> {
    if log == [] then None
    else
      var e := log[|log| - 1];
      if e.ResetBy? then Some(e.call) else LastReset(log[..|log| - 1])
  }

  ghost predicate InstallsJustified(log: seq<Event>) {
    forall i :: 0 <= i < |log| && log[i].InstalledByLoad? ==>
      FreshlyDelivered(log[..i], log[i].remote) && LastReset(log[..i]) == Some(log[i].call)
  }

  ghost predicate LoadInv(w: World) {
    && InstallsJustified(w.log)
    && (w.c.loaded.Some? ==> FreshlyDelivered(w.log, w.c.loaded.value))
    && (w.holder.InGet? && w.holder.pc != AtReset ==> LastReset(w.log) == Some(w.holder.call))
    && (w.holder.InGet? && w.holder.pc.AtInstall? && w.holder.pc.remote.Some? ==>
          FreshlyDelivered(w.log, w.holder.pc.remote.value))
  }

  lemma LogOneMore(log: seq<Event>, e: Event)
    requires InstallsJustified(log)
    requires e.InstalledByLoad? ==> FreshlyDelivered(log, e.remote) && LastReset(log) == Some(e.call)
    ensures InstallsJustified(log + [e])
    ensures LastReset(log + [e]) == if e.ResetBy? then Some(e.call) else LastReset(log)
    ensures forall r :: FreshlyDelivered(log + [e], r) <==>
            e == Delivered(r) || (!e.ResetBy? && FreshlyDelivered(log, r))
  {
    var all := log + [e];
    assert all[..|log|] == log;
    forall i | 0 <= i < |all| && all[i].InstalledByLoad?
      ensures FreshlyDelivered(all[..i], all[i].remote) && LastReset(all[..i]) == Some(all[i].call)
    {
      if i < |log| {
        assert all[..i] == log[..i] && all[i] == log[i];
      }
    }
  }

  lemma LoadLogGrows(w: World, w': World, e: Event)
    requires LoadInv(w) && w'.log == w.log + [e] && !e.ResetBy?
    requires e.InstalledByLoad? ==> FreshlyDelivered(w.log, e.remote) && LastReset(w.log) == Some(e.call)
    requires w'.c.loaded == w.c.loaded || (w'.c.loaded.Some? && e == Delivered(w'.c.loaded.value))
    requires w'.holder == w.holder || !w'.holder.InGet?
    ensures LoadInv(w')
  {
    LogOneMore(w.log, e);
  }

  lemma ResetLoad(w: World)
    requires LoadInv(w) && Enabled(w, Reset)
    ensures LoadInv(Exec(w, Reset))
  {
    LogOneMore(w.log, ResetBy(w.holder.call));
  }

  /** Installing may log that a cast failed; it touches nothing the loader uses. */
  lemma InstallKeepsLoad(w: World, r: Remote, a: InstallAnswer)
    requires LoadInv(w)
    ensures LoadInv(Install(w, r, a))
    ensures forall x :: FreshlyDelivered(Install(w, r, a).log, x) <==> FreshlyDelivered(w.log, x)
    ensures LastReset(Install(w, r, a).log) == LastReset(w.log)
  {
    var w1 := Install(w, r, a);
    if w1.log != w.log {
      LogOneMore(w.log, CastFailed(w.nextObserver, r));
    }
  }

  lemma ReturnLoad(w: World, k: int)
    requires LoadInv(w)
    ensures LoadInv(ReturnProxy(w, k))
  {
  }

  lemma InstallLoad(w: World, a: InstallAnswer)
    requires LoadInv(w) && Enabled(w, InstallLoaded(a))
    ensures LoadInv(DoInstallLoaded(w, a))
  {
    var (k, remote) := (w.holder.call, w.holder.pc.remote);
    ReturnLoad(w, k);
    if remote.Some? && w.c.proxy.None? {
      var w1 := Install(w, remote.value, a);
      InstallKeepsLoad(w, remote.value, a);
      var w2 := if w1.c.proxy.Some? then w1.(log := w1.log + [InstalledByLoad(remote.value, k)]) else w1;
      if w1.c.proxy.Some? {
        LoadLogGrows(w1, w2, InstalledByLoad(remote.value, k));
        assert w1.log == w.log;
      }
      ReturnLoad(w2, k);
    }
  }

  lemma LookupLoad(w: World, k: int, found: Option<Remote>, a: InstallAnswer)
    requires LoadInv(w) && Enabled(w, Lookup(k, found, a))
    ensures LoadInv(DoLookup(w, k, found, a))
  {
    ReturnLoad(w, k);
    if found.Some? {
      InstallKeepsLoad(w, found.value, a);
      ReturnLoad(Install(w, found.value, a), k);
    }
  }

  lemma RegisterLoad(w: World, k: int, serialised: bool, res: int)
    requires LoadInv(w) && Enabled(w, TryRegister(k, serialised, res))
    ensures LoadInv(DoTryRegister(w, k, serialised, res))
  {
    if serialised {
      LoadLogGrows(w, DoTryRegister(w, k, serialised, res), Sent(k, res));
    }
  }

  lemma StepLoad(w: World, l: Label)
    requires LoadInv(w) && Enabled(w, l)
    ensures LoadInv(Exec(w, l))
  {
    if l.Lookup? {
      LookupLoad(w, l.call, l.found, l.answer);
    } else if l.Reset? {
      ResetLoad(w);
    } else if l.InstallLoaded? {
      InstallLoad(w, l.answer);
    } else if l.LoadSuccess? {
      LoadLogGrows(w, Exec(w, l), Delivered(l.remote));
    } else if l.Notice? {
      var w' := DoNotice(w, l.observer, l.remote);
      LoadLogGrows(w, w', w'.log[|w.log|]);
    } else if l.TryRegister? {
      RegisterLoad(w, l.call, l.serialised, l.res);
    } else {
      assert Exec(w, l).log == w.log;
    }
  }

  // Requests

  /** The results of the requests one call sent, in order. */
  function RequestsOf(log: seq<Event>, k: int): seq<int> {
    if log == [] then []
    else
      var e := log[|log| - 1];
      var before := RequestsOf(log[..|log| - 1], k);
      if e.Sent? && e.call == k then before + [e.res] else before
  }

  predicate CallInOrder(call: Call) {
    match call.pc
    case Getting(_) => call.results == []
    case Sending => call.register && (call.results == [] || (|call.results| == 1 && Retries(call.results[0])))
    case Waiting(res) => call.results == [res] && Retries(res) && call.register
    case GettingAgain(res) => call.results == [res] && Retries(res) && call.register
    case Finished =>
      && |call.results| <= 2 && (|call.results| == 2 ==> Retries(call.results[0]))
      && (!call.register ==> call.results == [])
  }

  ghost predicate CallKnown(w: World, k: int) {
    && RequestsOf(w.log, k) == (if k in w.calls then w.calls[k].results else [])
    && (k in w.calls ==> CallInOrder(w.calls[k]))
  }

  ghost predicate CallsInOrder(w: World) {
    && (forall k :: k in w.calls ==> CallInOrder(w.calls[k]))
    && (w.holder.InGet? ==> IsGetting(w, w.holder.call))
    && (forall k :: RequestsOf(w.log, k) == if k in w.calls then w.calls[k].results else [])
  }

  lemma RequestsOneMore(log: seq<Event>, e: Event, k: int)
    ensures RequestsOf(log + [e], k) == RequestsOf(log, k) + if e.Sent? && e.call == k then [e.res] else []
  {
  }

  predicate SameCalls(w: World, w': World) {
    && w'.calls == w.calls
    && (w'.holder == w.holder || !w'.holder.InGet? || (w.holder.InGet? && w'.holder.call == w.holder.call))
  }

  lemma CallsKept(w: World, w': World)
    requires CallsInOrder(w) && SameCalls(w, w') && w'.log == w.log
    ensures CallsInOrder(w')
  {
  }

  lemma CallsKeptLogged(w: World, w': World, e: Event)
    requires CallsInOrder(w) && SameCalls(w, w') && w'.log == w.log + [e] && !e.Sent?
    ensures CallsInOrder(w')
  {
    forall k ensures RequestsOf(w'.log, k) == RequestsOf(w.log, k) {
      RequestsOneMore(w.log, e, k);
    }
  }

  lemma ReturnCalls(w: World, k: int)
    requires CallsInOrder(w) && IsGetting(w, k)
    ensures CallsInOrder(ReturnProxy(w, k))
  {
  }

  lemma RegisterOrder(call: Call, res: int)
    requires CallInOrder(call) && call.pc.Sending?
    ensures CallInOrder(AfterRequest(call, res)) && CallInOrder(call.(pc := Finished))
  {
  }

  lemma SentKnown(w: World, k: int, res: int, j: int)
    requires CallKnown(w, j) && k in w.calls && CallInOrder(AfterRequest(w.calls[k], res))
    ensures CallKnown(DoTryRegister(w, k, true, res), j)
  {
    RequestsOneMore(w.log, Sent(k, res), j);
  }

  lemma AllKnown(w: World)
    requires (w.holder.InGet? ==> IsGetting(w, w.holder.call)) && forall k :: CallKnown(w, k)
    ensures CallsInOrder(w)
  {
    forall k ensures RequestsOf(w.log, k) == (if k in w.calls then w.calls[k].results else []) {
      assert CallKnown(w, k);
    }
    forall k | k in w.calls ensures CallInOrder(w.calls[k]) {
      assert CallKnown(w, k);
    }
  }

  lemma SentCalls(w: World, k: int, res: int)
    requires CallsInOrder(w) && Enabled(w, TryRegister(k, true, res))
    ensures CallsInOrder(DoTryRegister(w, k, true, res))
  {
    var w' := DoTryRegister(w, k, true, res);
    RegisterOrder(w.calls[k], res);
    forall j ensures CallKnown(w', j) {
      assert CallKnown(w, j);
      SentKnown(w, k, res, j);
    }
    AllKnown(w');
  }

  lemma RegisterCalls(w: World, k: int, serialised: bool, res: int)
    requires CallsInOrder(w) && Enabled(w, TryRegister(k, serialised, res))
    ensures CallsInOrder(DoTryRegister(w, k, serialised, res))
  {
    if serialised {
      SentCalls(w, k, res);
    } else {
      RegisterOrder(w.calls[k], res);
    }
  }

  lemma InstallKeepsCalls(w: World, r: Remote, a: InstallAnswer)
    requires CallsInOrder(w)
    ensures CallsInOrder(Install(w, r, a))
  {
    var w1 := Install(w, r, a);
    if w1.log == w.log {
      CallsKept(w, w1);
    } else {
      CallsKeptLogged(w, w1, CastFailed(w.nextObserver, r));
    }
  }

  lemma LookupCalls(w: World, k: int, found: Option<Remote>, a: InstallAnswer)
    requires CallsInOrder(w) && Enabled(w, Lookup(k, found, a))
    ensures CallsInOrder(DoLookup(w, k, found, a))
  {
    ReturnCalls(w, k);
    if found.Some? {
      InstallKeepsCalls(w, found.value, a);
      ReturnCalls(Install(w, found.value, a), k);
    }
  }

  lemma InstallCalls(w: World, a: InstallAnswer)
    requires CallsInOrder(w) && Enabled(w, InstallLoaded(a))
    ensures CallsInOrder(DoInstallLoaded(w, a))
  {
    var (k, remote) := (w.holder.call, w.holder.pc.remote);
    ReturnCalls(w, k);
    if remote.Some? && w.c.proxy.None? {
      var w1 := Install(w, remote.value, a);
      InstallKeepsCalls(w, remote.value, a);
      ReturnCalls(w1, k);
      if w1.c.proxy.Some? {
        var w2 := w1.(log := w1.log + [InstalledByLoad(remote.value, k)]);
        CallsKeptLogged(w1, w2, InstalledByLoad(remote.value, k));
        ReturnCalls(w2, k);
        assert w1.log == w.log;
      }
    }
  }

  lemma StepCalls(w: World, l: Label)
    requires CallsInOrder(w) && Enabled(w, l)
    ensures CallsInOrder(Exec(w, l))
  {
    if l.Lookup? {
      LookupCalls(w, l.call, l.found, l.answer);
    } else if l.InstallLoaded? {
      InstallCalls(w, l.answer);
    } else if l.TryRegister? {
      RegisterCalls(w, l.call, l.serialised, l.res);
    } else if l.Reset? {
      CallsKeptLogged(w, Exec(w, l), ResetBy(w.holder.call));
    } else if l.LoadSuccess? {
      CallsKeptLogged(w, Exec(w, l), Delivered(l.remote));
    } else if l.Notice? {
      var w' := DoNotice(w, l.observer, l.remote);
      CallsKeptLogged(w, w', w'.log[|w.log|]);
    } else if !l.Begin? && !l.WaitRetry? {
      CallsKept(w, Exec(w, l));
    }
  }

  // Whole runs

  lemma {:induction false} RunKeeps(worlds: seq<World>, labels: seq<Label>, n: nat)
    requires IsRun(worlds, labels) && n < |worlds|
    ensures Watched(worlds[n]) && LoadInv(worlds[n]) && CallsInOrder(worlds[n])
  {
    if n > 0 {
      RunKeeps(worlds, labels, n - 1);
      assert StepAt(worlds, labels, n - 1);
      StepWatched(worlds[n - 1], labels[n - 1]);
      StepLoad(worlds[n - 1], labels[n - 1]);
      StepCalls(worlds[n - 1], labels[n - 1]);
    }
  }

  /**
   In every interleaving: the proxy is set exactly when its death observer is,
   and that observer is registered on it unless its death is already on the way.
   */
  lemma ProxyIsWatched(worlds: seq<World>, labels: seq<Label>, n: nat)
    requires IsRun(worlds, labels) && n < |worlds|
    ensures var w := worlds[n];
            && (w.c.proxy.Some? <==> w.c.observer.Some?)
            && (w.c.proxy.Some? ==>
                  var x := (w.c.observer.value, w.c.proxy.value);
                  if w.c.proxy.value in w.dead then x in w.notices else x in w.watching)
  {
    RunKeeps(worlds, labels, n);
  }

  lemma {:induction false} WhenDelivered(log: seq<Event>, r: Remote) returns (j: nat)
    requires FreshlyDelivered(log, r)
    ensures j < |log| && log[j] == Delivered(r) && forall i :: j < i < |log| ==> !log[i].ResetBy?
  {
    var n := |log| - 1;
    if log[n] == Delivered(r) {
      j := n;
    } else {
      j := WhenDelivered(log[..n], r);
      assert forall i :: j < i < n ==> log[i] == log[..n][i];
    }
  }

  lemma {:induction false} WhenReset(log: seq<Event>) returns (j: nat)
    requires LastReset(log).Some?
    ensures j < |log| && log[j] == ResetBy(LastReset(log).value) && forall i :: j < i < |log| ==> !log[i].ResetBy?
  {
    var n := |log| - 1;
    if log[n].ResetBy? {
      j := n;
    } else {
      j := WhenReset(log[..n]);
      assert forall i :: j < i < n ==> log[i] == log[..n][i];
    }
  }

  /**
   An object installed through the loader was delivered after the installing call's own reset,
   with no other reset between.
   */
  lemma LoadedAfterOwnReset(worlds: seq<World>, labels: seq<Label>, n: nat, i: nat) returns (reset: nat, delivered: nat)
    requires IsRun(worlds, labels) && n < |worlds| && i < |worlds[n].log| && worlds[n].log[i].InstalledByLoad?
    ensures var log := worlds[n].log;
            && reset < delivered < i
            && log[reset] == ResetBy(log[i].call) && log[delivered] == Delivered(log[i].remote)
            && forall j :: reset < j < i ==> !log[j].ResetBy?
  {
    RunKeeps(worlds, labels, n);
    var before := worlds[n].log[..i];
    delivered := WhenDelivered(before, worlds[n].log[i].remote);
    reset := WhenReset(before);
    assert before[reset].ResetBy? && before[delivered].Delivered?;
    assert forall j :: reset < j < i ==> worlds[n].log[j] == before[j];
  }

  /** A registration sends at most two requests, and the second only after a result that calls for another try. */
  lemma AtMostTwoRequests(worlds: seq<World>, labels: seq<Label>, n: nat, k: int)
    requires IsRun(worlds, labels) && n < |worlds|
    ensures var sent := RequestsOf(worlds[n].log, k);
            |sent| <= 2 && (|sent| == 2 ==> sent[0] in {SC_SERVICE_ERROR_SERVICE_NOT_EXIST, 29189, 29201, 32})
  {
    RunKeeps(worlds, labels, n);
    var w := worlds[n];
    if k in w.calls {
      assert CallInOrder(w.calls[k]);
    }
  }

  // What the log tells

  /** The observer whose cast failed is the new one that watches its object although no proxy was set. */
  ghost predicate NewStray(w: World, w': World, r: Remote) {
    w'.watching == w.watching + {(w.nextObserver, r)} && w'.c.proxy.None? && (w.nextObserver, r) !in w.watching
  }

  /** What happens in a step, told by the client's state before and after. */
  ghost predicate Happens(w: World, l: Label, w': World, events: seq<Event>) {
    match l
    case Reset => w.holder.InGet? && events == [ResetBy(w.holder.call)] && !w'.c.ready && w'.c.loaded.None?
    case LoadSuccess(r) => events == [Delivered(r)] && w'.c.loaded == Some(r)
    case TryRegister(k, serialised, res) => events == if serialised then [Sent(k, res)] else []
    case Notice(o, r) => events == [Handled(o, r, w.c.proxy, w.c.proxy == Some(r) && w.c.observer == Some(o))]
    case Lookup(k, found, _) =>
      if found.Some? && w.c.proxy.None? && NewStray(w, w', found.value)
      then events == [CastFailed(w.nextObserver, found.value)] else events == []
    case InstallLoaded(_) =>
      if !(w.holder.InGet? && w.holder.pc.AtInstall? && w.c.proxy.None?) || w.holder.pc.remote.None? then events == []
      else if w'.c.proxy.Some? then events == [InstalledByLoad(w'.c.proxy.value, w.holder.call)]
      else if NewStray(w, w', w.holder.pc.remote.value) then
        events == [CastFailed(w.nextObserver, w.holder.pc.remote.value)]
      else events == []
    case _ => events == []
  }

  /** The log is the run as an observer sees it: nothing is left out, and nothing is made up. */
  lemma StepLogs(w: World, l: Label, w': World)
    requires Step(w, l, w') && Watched(w)
    ensures w.log <= w'.log && Happens(w, l, w', w'.log[|w.log|..])
  {
    var events := w'.log[|w.log|..];
    if l.Lookup? {
      LookupLogs(w, l, w');
    } else if l.InstallLoaded? {
      InstallLogs(w, l, w');
    }
  }

  lemma LookupLogs(w: World, l: Label, w': World)
    requires Step(w, l, w') && Watched(w) && l.Lookup?
    ensures w.log <= w'.log && Happens(w, l, w', w'.log[|w.log|..])
  {
    assert forall r: Remote :: (w.nextObserver, r) !in w.watching;
  }

  lemma InstallLogs(w: World, l: Label, w': World)
    requires Step(w, l, w') && Watched(w) && l.InstallLoaded?
    ensures w.log <= w'.log && Happens(w, l, w', w'.log[|w.log|..])
  {
    assert forall r: Remote :: (w.nextObserver, r) !in w.watching;
  }

  /** The step hands the proxy, or none, back to this call. */
  predicate HandsBack(w: World, l: Label, w': World, k: int) {
    && ((l.Lookup? && l.call == k) || (l.InstallLoaded? && w.holder.InGet? && w.holder.call == k))
    && w'.holder == NoOne
  }

  /** What the step makes of call `k`, a registration. */
  predicate GoesOn(w: World, l: Label, w': World, k: int)
    requires k in w.calls
  {
    k in w'.calls
    && var (c, c') := (w.calls[k], w'.calls[k]);
    if l.TryRegister? && l.call == k && l.serialised then
      && c'.results == c.results + [l.res]
      && c'.pc == if c.results == [] && l.res in {SC_SERVICE_ERROR_SERVICE_NOT_EXIST, 29189, 29201, 32}
                  then Waiting(l.res) else Finished
    else
      && c'.results == c.results
      && if l.TryRegister? && l.call == k then c'.pc == Finished
         else if l.WaitRetry? && l.call == k then
           if l.seen then c'.pc.GettingAgain? && DoesLoad(w', k) else c'.pc == Finished
         else if HandsBack(w, l, w', k) then c'.pc == (if w'.c.proxy.Some? then Sending else Finished)
         else c'.pc == c.pc
  }

  lemma LookupGoesOn(w: World, l: Label, k: int)
    requires Enabled(w, l) && l.Lookup? && k in w.calls && w.calls[k].register
    ensures GoesOn(w, l, Exec(w, l), k)
  {
  }

  lemma InstallGoesOn(w: World, l: Label, k: int)
    requires Enabled(w, l) && l.InstallLoaded? && k in w.calls && w.calls[k].register
    ensures GoesOn(w, l, Exec(w, l), k)
  {
  }

  /**
   How a registration goes on. With a proxy it sends; after a first result that says the
   service is gone it waits for the death notice, and when that is seen gets the proxy
   again, loading the service if need be; any other result, a wait in vain, or no proxy
   ends it.
   */
  lemma RegistrationGoesOn(w: World, l: Label, w': World, k: int)
    requires Step(w, l, w') && k in w.calls && w.calls[k].register
    ensures GoesOn(w, l, w', k)
  {
    if l.Lookup? {
      LookupGoesOn(w, l, k);
    } else if l.InstallLoaded? {
      InstallGoesOn(w, l, k);
    }
  }

  // Which proxy a death notice drops

  ghost predicate AllOwn(log: seq<Event>) {
    forall i :: 0 <= i < |log| && log[i].Handled? ==> log[i].own
  }

  /** No death notice was handled of an observer whose cast had failed. */
  ghost predicate NoneAfterFailedCast(log: seq<Event>) {
    forall i :: 0 <= i < |log| && log[i].Handled? ==> CastFailed(log[i].observer, log[i].died) !in log[..i]
  }

  /** As long as every notice came from the proxy's observer, all other observers are left from failed casts. */
  ghost predicate NoticesInv(w: World) {
    && (AllOwn(w.log) <==> NoneAfterFailedCast(w.log))
    && (AllOwn(w.log) ==>
          forall x :: x in w.watching + w.notices && !Mine(w, x) ==> CastFailed(x.0, x.1) in w.log)
    && (forall o: Observer, r: Remote :: CastFailed(o, r) in w.log ==> o < w.nextObserver && w.c.observer != Some(o))
  }

  lemma NoticesLogGrows(log: seq<Event>, e: Event)
    ensures AllOwn(log + [e]) <==> AllOwn(log) && (e.Handled? ==> e.own)
    ensures NoneAfterFailedCast(log + [e])
       <==> NoneAfterFailedCast(log) && (e.Handled? ==> CastFailed(e.observer, e.died) !in log)
  {
    var all := log + [e];
    assert all[|log|] == e && all[..|log|] == log;
    forall i | 0 <= i < |log| ensures all[i] == log[i] && all[..i] == log[..i] {
    }
  }

  lemma OtherEventNotices(w: World, w': World, e: Event)
    requires NoticesInv(w) && w'.log == w.log + [e] && !e.Handled? && !e.CastFailed?
    requires w'.c.proxy == w.c.proxy && w'.c.observer == w.c.observer && w'.nextObserver == w.nextObserver
    requires w'.watching == w.watching && w'.notices == w.notices
    ensures NoticesInv(w')
  {
    NoticesLogGrows(w.log, e);
  }

  lemma InstallNotices(w: World, r: Remote, a: InstallAnswer)
    requires Watched(w) && NoticesInv(w)
    ensures NoticesInv(Install(w, r, a))
  {
    var w' := Install(w, r, a);
    if w'.log != w.log {
      NoticesLogGrows(w.log, CastFailed(w.nextObserver, r));
      assert w'.log[|w.log|] == CastFailed(w.nextObserver, r);
    }
  }

  lemma ReturnNotices(w: World, k: int)
    requires NoticesInv(w)
    ensures NoticesInv(ReturnProxy(w, k))
  {
  }

  lemma LookupNotices(w: World, k: int, found: Option<Remote>, a: InstallAnswer)
    requires Watched(w) && NoticesInv(w)
    ensures NoticesInv(DoLookup(w, k, found, a))
  {
    ReturnNotices(w, k);
    if found.Some? {
      InstallNotices(w, found.value, a);
      ReturnNotices(Install(w, found.value, a), k);
    }
  }

  lemma InstallLoadedNotices(w: World, a: InstallAnswer)
    requires Watched(w) && NoticesInv(w) && Enabled(w, InstallLoaded(a))
    ensures NoticesInv(DoInstallLoaded(w, a))
  {
    var (k, remote) := (w.holder.call, w.holder.pc.remote);
    ReturnNotices(w, k);
    if remote.Some? && w.c.proxy.None? {
      var w1 := Install(w, remote.value, a);
      InstallNotices(w, remote.value, a);
      ReturnNotices(w1, k);
      if w1.c.proxy.Some? {
        var w2 := w1.(log := w1.log + [InstalledByLoad(remote.value, k)]);
        OtherEventNotices(w1, w2, InstalledByLoad(remote.value, k));
        ReturnNotices(w2, k);
        assert w1.log == w.log;
      }
    }
  }

  /** The notice is the proxy's own exactly when its cast had not failed, if all before were. */
  lemma HandledNotices(w: World, o: Observer, r: Remote)
    requires Watched(w) && NoticesInv(w) && Enabled(w, Notice(o, r))
    ensures NoticesInv(DoNotice(w, o, r))
  {
    var w' := DoNotice(w, o, r);
    var e := w'.log[|w.log|];
    NoticesLogGrows(w.log, e);
    assert (o, r) in w.watching + w.notices;
    assert Mine(w, (o, r)) <==> e.own;
    forall x | x in w'.watching + w'.notices && AllOwn(w'.log) ensures CastFailed(x.0, x.1) in w'.log {
      assert x in w.watching + w.notices;
    }
  }

  lemma StepNotices(w: World, l: Label)
    requires Watched(w) && NoticesInv(w) && Enabled(w, l)
    ensures NoticesInv(Exec(w, l))
  {
    if l.Lookup? {
      LookupNotices(w, l.call, l.found, l.answer);
    } else if l.InstallLoaded? {
      InstallLoadedNotices(w, l.answer);
    } else if l.Notice? {
      HandledNotices(w, l.observer, l.remote);
    } else if l.Reset? {
      OtherEventNotices(w, Exec(w, l), ResetBy(w.holder.call));
    } else if l.LoadSuccess? {
      OtherEventNotices(w, Exec(w, l), Delivered(l.remote));
    } else if l.TryRegister? {
      if l.serialised {
        OtherEventNotices(w, Exec(w, l), Sent(l.call, l.res));
      }
    } else {
      assert Exec(w, l).log == w.log;
    }
  }

  lemma {:induction false} RunNotices(worlds: seq<World>, labels: seq<Label>, n: nat)
    requires IsRun(worlds, labels) && n < |worlds|
    ensures NoticesInv(worlds[n])
  {
    if n > 0 {
      RunNotices(worlds, labels, n - 1);
      RunKeeps(worlds, labels, n - 1);
      assert StepAt(worlds, labels, n - 1);
      StepNotices(worlds[n - 1], labels[n - 1]);
    }
  }

  /** The notice that comes from the proxy's own observer drops the proxy of the object that died. */
  lemma OwnNoticeDropsTheDead(worlds: seq<World>, labels: seq<Label>, n: nat, o: Observer, r: Remote)
    requires IsRun(worlds, labels) && n < |labels| && labels[n] == Notice(o, r)
    ensures Enabled(worlds[n], labels[n])
    ensures var (w, e) := (worlds[n], Handled(o, r, worlds[n].c.proxy, Mine(worlds[n], (o, r))));
            && worlds[n + 1].log == w.log + [e] && worlds[n + 1].c.proxy == None && r in w.dead
            && (e.own <==> w.c.observer == Some(o)) && (e.own ==> w.c.proxy == Some(r))
  {
    assert StepAt(worlds, labels, n);
    RunKeeps(worlds, labels, n);
    assert (o, r) in worlds[n].watching + worlds[n].notices;
  }

  /**
   In every run: all death notices handled so far came from the observer of the proxy they
   dropped, exactly when none of them came from an observer whose cast had failed before.
   */
  lemma NoticesAreOwn(worlds: seq<World>, labels: seq<Label>, n: nat)
    requires IsRun(worlds, labels) && n < |worlds|
    ensures AllOwn(worlds[n].log) <==> NoneAfterFailedCast(worlds[n].log)
  {
    RunNotices(worlds, labels, n);
  }

  /** While that is so, the next notice comes from the proxy's observer exactly when its cast had not failed. */
  lemma NoticeIsAboutProxy(worlds: seq<World>, labels: seq<Label>, n: nat, o: Observer, r: Remote)
    requires IsRun(worlds, labels) && n < |worlds| && Enabled(worlds[n], Notice(o, r)) && AllOwn(worlds[n].log)
    ensures Mine(worlds[n], (o, r)) <==> CastFailed(o, r) !in worlds[n].log
  {
    RunNotices(worlds, labels, n);
    assert (o, r) in worlds[n].watching + worlds[n].notices;
  }

  /** Handling the steps in order, from one world. */
  function After(w: World, labels: seq<Label>): Option<World>
    decreases |labels|
  {
    if labels == [] then Some(w)
    else if Enabled(w, labels[0]) then After(Exec(w, labels[0]), labels[1..])
    else None
  }

  /** After a failed cast, the death of an object that never became the proxy drops a live one. */
  lemma FailedCastDropsLiveProxy(w: World)
    requires Init(w) && w.dead == {} && w.nextObserver == 0
    ensures var good := InstallAnswer(true, true, true);
            var labels := [Begin(1, false, false), Lookup(1, Some(7), good.(castOk := false)),
                           Begin(2, false, false), Lookup(2, Some(8), good), ObjectDies(7)];
            var w' := After(w, labels);
            && w'.Some? && w'.value.c.proxy == Some(8) && 8 !in w'.value.dead
            && Enabled(w'.value, Notice(0, 7)) && Exec(w'.value, Notice(0, 7)).c.proxy == None
  {
    var good := InstallAnswer(true, true, true);
    var (l1, l2, l3, l4, l5) :=
      (Begin(1, false, false), Lookup(1, Some(7), good.(castOk := false)), Begin(2, false, false),
        Lookup(2, Some(8), good), ObjectDies(7));
    var w1 := Exec(w, l1);
    var w2 := Exec(w1, l2);
    assert w2.watching == {(0, 7)};
    var w3 := Exec(w2, l3);
    var w4 := Exec(w3, l4);
    assert w4.watching == {(0, 7), (1, 8)};
    var w5 := Exec(w4, l5);
    assert (0, 7) in w5.notices;
    assert [l1, l2, l3, l4, l5][1..] == [l2, l3, l4, l5];
    assert [l2, l3, l4, l5][1..] == [l3, l4, l5];
    assert [l3, l4, l5][1..] == [l4, l5];
    assert [l4, l5][1..] == [l5];
    assert After(w4, [l5]) == After(w5, []);
    assert After(w3, [l4, l5]) == After(w4, [l5]);
    assert After(w2, [l3, l4, l5]) == After(w3, [l4, l5]);
    assert After(w1, [l2, l3, l4, l5]) == After(w2, [l3, l4, l5]);
  }

  // Whole calls, and that they are the machine's steps with nothing in between

  datatype LoadCallback = LoadedObject(remote: Option<Remote>) | LoadFailed

  predicate Delivers(cb: LoadCallback) {
    cb.LoadedObject? && cb.remote.Some?
  }

  /**
   The loader's callbacks in the order in which they arrive while a caller waits; a null object
   counts as a failure.
   */
  function AfterCallback(c: ClientState, cb: LoadCallback): ClientState {
    if Delivers(cb) then c.(loaded := cb.remote, ready := true, needLoad := false)
    else c.(loaded := None, ready := false)
  }

  /** The wait ends with the first object delivered, or when it times out. */
  function AfterWait(c: ClientState, arrivals: seq<LoadCallback>): ClientState
    decreases |arrivals|
  {
    if c.ready || arrivals == [] then c else AfterWait(AfterCallback(c, arrivals[0]), arrivals[1..])
  }

  function AfterLoad(w: World, requestOk: bool, arrivals: seq<LoadCallback>, a: InstallAnswer): World {
    var c1 := w.c.(ready := false, loaded := None);
    var c2 := if requestOk then AfterWait(c1, arrivals) else c1;
    var w3 := w.(c := c2.(loaded := None));
    if c2.loaded.Some? && w3.c.proxy.None? then Install(w3, c2.loaded.value, a) else w3
  }

  function AfterGetProxy(w: World, doLoad: bool, found: Option<Remote>, requestOk: bool, arrivals: seq<LoadCallback>,
      a: InstallAnswer): World
  {
    if w.c.proxy.Some? then w
    else if found.Some? then Install(w, found.value, a)
    else if !doLoad then w
    else AfterLoad(w, requestOk, arrivals, a)
  }

  /** The first object delivered, at place `i`. */
  predicate FirstDelivery(arrivals: seq<LoadCallback>, i: nat) {
    i < |arrivals| && Delivers(arrivals[i]) && forall j :: 0 <= j < i ==> !Delivers(arrivals[j])
  }

  /** The wait keeps exactly the first object that is delivered, and is ready exactly when one was. */
  lemma {:induction false} WaitEndsWithFirstObject(c: ClientState, arrivals: seq<LoadCallback>)
    requires !c.ready && c.loaded == None
    ensures var c' := AfterWait(c, arrivals);
            && c'.proxy == c.proxy && c'.observer == c.observer && (c'.ready <==> c'.loaded.Some?)
            && (c'.loaded.Some? <==> exists i: nat :: FirstDelivery(arrivals, i))
            && forall i: nat :: FirstDelivery(arrivals, i) ==> c'.loaded == arrivals[i].remote
    decreases |arrivals|
  {
    if arrivals != [] {
      var c1, rest := AfterCallback(c, arrivals[0]), arrivals[1..];
      if c1.ready {
        assert AfterWait(c1, rest) == c1;
        assert FirstDelivery(arrivals, 0);
      } else {
        WaitEndsWithFirstObject(c1, rest);
        forall i: nat ensures FirstDelivery(arrivals, i + 1) <==> FirstDelivery(rest, i) {
          assert forall j :: 0 <= j < |rest| ==> rest[j] == arrivals[j + 1];
        }
        if i: nat :| FirstDelivery(arrivals, i) {
          assert FirstDelivery(rest, i - 1);
        }
        forall i: nat | FirstDelivery(arrivals, i) ensures AfterWait(c, arrivals).loaded == arrivals[i].remote {
          assert FirstDelivery(rest, i - 1) && rest[i - 1] == arrivals[i];
        }
      }
    }
  }

  predicate InstallsFine(w: World, r: Remote, a: InstallAnswer) {
    a.allocOk && a.addOk && a.castOk && r !in w.dead
  }

  /** The object a call goes for: the one that is registered, or the first one the loader delivers. */
  ghost predicate GoesFor(doLoad: bool, found: Option<Remote>, requestOk: bool, arrivals: seq<LoadCallback>,
      r: Remote)
  {
    if found.Some? then r == found.value
    else doLoad && requestOk && exists i: nat :: FirstDelivery(arrivals, i) && arrivals[i].remote == Some(r)
  }

  /**
   What a caller without a proxy gets: the object it went for, if that could be installed,
   and otherwise nothing. A caller with a proxy gets it, and changes nothing.
   */
  lemma GetProxyMeaning(w: World, doLoad: bool, found: Option<Remote>, requestOk: bool, arrivals: seq<LoadCallback>,
      a: InstallAnswer)
    ensures var w' := AfterGetProxy(w, doLoad, found, requestOk, arrivals, a);
            if w.c.proxy.Some? then w' == w
            else
              && (forall r: Remote :: w'.c.proxy == Some(r) <==>
                    GoesFor(doLoad, found, requestOk, arrivals, r) && InstallsFine(w, r, a))
              && (w'.c.proxy.Some? ==> w'.c.observer == Some(w.nextObserver) && w'.nextObserver == w.nextObserver + 1
                                       && w'.watching == w.watching + {(w.nextObserver, w'.c.proxy.value)})
              && (found.None? && doLoad ==> w'.c.loaded == None)
  {
    if w.c.proxy.None? && found.None? && doLoad {
      WaitEndsWithFirstObject(w.c.(ready := false, loaded := None), arrivals);
    }
  }

  ghost predicate Runs(w: World, labels: seq<Label>, w': World)
    decreases |labels|
  {
    if labels == [] then w' == w
    else
      var n := |labels| - 1;
      exists mid :: Runs(w, labels[..n], mid) && Step(mid, labels[n], w')
  }

  lemma RunsOneMore(w: World, labels: seq<Label>, mid: World, l: Label, w': World)
    requires Runs(w, labels, mid) && Step(mid, l, w')
    ensures Runs(w, labels + [l], w')
  {
    var more := labels + [l];
    assert more[..|more| - 1] == labels && more[|more| - 1] == l;
  }

  /** The same client; the worlds may differ in what was logged, who holds the mutex and how far the calls are. */
  predicate SameClient(w: World, w': World) {
    && w'.c == w.c && w'.watching == w.watching && w'.notices == w.notices && w'.dead == w.dead
    && w'.nextObserver == w.nextObserver
  }

  /** The callbacks that arrive during a wait, as steps: what is delivered first also clears the reload flag. */
  lemma {:induction false} ArrivalSteps(w0: World, labels: seq<Label>, w: World, arrivals: seq<LoadCallback>)
    returns (more: seq<Label>, w': World)
    requires Runs(w0, labels, w)
    ensures Runs(w0, more, w') && w' == w.(c := AfterWait(w.c, arrivals), log := w'.log)
    ensures labels <= more
    ensures forall i :: |labels| <= i < |more| ==> more[i].LoadSuccess? || more[i].ClearNeedLoad? || more[i].LoadFail?
    decreases |arrivals|
  {
    more, w' := labels, w;
    if !w.c.ready && arrivals != [] {
      more, w' := CallbackSteps(w0, labels, w, arrivals[0]);
      var tail, last := ArrivalSteps(w0, more, w', arrivals[1..]);
      more, w' := tail, last;
    }
  }

  lemma CallbackSteps(w0: World, labels: seq<Label>, w: World, cb: LoadCallback) returns (more: seq<Label>, w': World)
    requires Runs(w0, labels, w)
    ensures Runs(w0, more, w') && w' == w.(c := AfterCallback(w.c, cb), log := w'.log)
    ensures labels <= more
    ensures forall i :: |labels| <= i < |more| ==> more[i].LoadSuccess? || more[i].ClearNeedLoad? || more[i].LoadFail?
  {
    if Delivers(cb) {
      var w1 := Exec(w, LoadSuccess(cb.remote.value));
      w' := Exec(w1, ClearNeedLoad);
      RunsOneMore(w0, labels, w, LoadSuccess(cb.remote.value), w1);
      RunsOneMore(w0, labels + [LoadSuccess(cb.remote.value)], w1, ClearNeedLoad, w');
      more := labels + [LoadSuccess(cb.remote.value)] + [ClearNeedLoad];
    } else {
      w' := Exec(w, LoadFail);
      RunsOneMore(w0, labels, w, LoadFail, w');
      more := labels + [LoadFail];
    }
  }

  lemma InstallEnds(w: World, a: InstallAnswer)
    requires w.holder.InGet? && w.holder.pc.AtInstall?
    ensures var (w', remote) := (DoInstallLoaded(w, a), w.holder.pc.remote);
            && w'.holder == NoOne
            && SameClient(w', if remote.Some? && w.c.proxy.None? then Install(w, remote.value, a) else w)
  {
  }

  lemma TakeSteps(w0: World, labels: seq<Label>, w: World, a: InstallAnswer) returns (more: seq<Label>, w': World)
    requires Runs(w0, labels, w) && w.holder.InGet? && w.holder.pc == AtTake
    ensures Runs(w0, more, w') && w'.holder == NoOne && more == labels + [Take] + [InstallLoaded(a)]
    ensures var w1 := w.(c := w.c.(loaded := None));
            SameClient(w', if w.c.loaded.Some? && w.c.proxy.None? then Install(w1, w.c.loaded.value, a) else w1)
  {
    var w1 := w.(c := w.c.(loaded := None), holder := InGet(w.holder.call, AtInstall(w.c.loaded)));
    w' := DoInstallLoaded(w1, a);
    InstallEnds(w1, a);
    RunsOneMore(w0, labels, w, Take, w1);
    RunsOneMore(w0, labels + [Take], w1, InstallLoaded(a), w');
    more := labels + [Take] + [InstallLoaded(a)];
  }

  /** Where a caller stands after the request: the state of the wait is over, or there was none. */
  lemma RequestSteps(w0: World, labels: seq<Label>, w: World, requestOk: bool, arrivals: seq<LoadCallback>)
    returns (more: seq<Label>, w': World)
    requires Runs(w0, labels, w) && w.holder.InGet? && w.holder.pc == AtReset
    ensures Runs(w0, more, w') && labels <= more
    ensures var c1 := w.c.(ready := false, loaded := None);
            w' == w.(c := if requestOk then AfterWait(c1, arrivals) else c1,
                     holder := InGet(w.holder.call, AtTake), log := w'.log)
  {
    var w1 := Exec(w, Reset);
    var w2 := Exec(w1, RequestLoad(requestOk));
    RunsOneMore(w0, labels, w, Reset, w1);
    RunsOneMore(w0, labels + [Reset], w1, RequestLoad(requestOk), w2);
    more, w' := labels + [Reset] + [RequestLoad(requestOk)], w2;
    if requestOk {
      var w3;
      more, w3 := ArrivalSteps(w0, more, w2, arrivals);
      w' := Exec(w3, WaitEnds);
      RunsOneMore(w0, more, w3, WaitEnds, w');
      more := more + [WaitEnds];
    }
  }

  lemma LookupEnds(w: World, k: int, found: Option<Remote>, a: InstallAnswer)
    requires w.holder == NoOne && IsGetting(w, k)
    ensures var w' := DoLookup(w, k, found, a);
            if w.c.proxy.None? && found.None? && DoesLoad(w, k) then w' == w.(holder := InGet(k, AtReset))
            else w'.holder == NoOne &&
                 SameClient(w', if w.c.proxy.None? && found.Some? then Install(w, found.value, a) else w)
  {
  }

  lemma LookupRuns(w: World, k: int, found: Option<Remote>, a: InstallAnswer)
    requires w.holder == NoOne && IsGetting(w, k)
    ensures Runs(w, [Lookup(k, found, a)], DoLookup(w, k, found, a))
  {
    assert Runs(w, [], w);
    RunsOneMore(w, [], w, Lookup(k, found, a), DoLookup(w, k, found, a));
    assert [] + [Lookup(k, found, a)] == [Lookup(k, found, a)];
  }

  /**
   A call of GetProxy is looking up, resetting, requesting, the callbacks, taking and
   installing, with nothing else in between.
   */
  lemma GetProxyIsItsSteps(w: World, k: int, found: Option<Remote>, requestOk: bool, arrivals: seq<LoadCallback>,
      a: InstallAnswer)
    returns (labels: seq<Label>, w': World)
    requires w.holder == NoOne && IsGetting(w, k)
    ensures Runs(w, labels, w') && w'.holder == NoOne
    ensures SameClient(w', AfterGetProxy(w, DoesLoad(w, k), found, requestOk, arrivals, a))
    ensures [Lookup(k, found, a)] <= labels
  {
    labels, w' := [Lookup(k, found, a)], DoLookup(w, k, found, a);
    LookupRuns(w, k, found, a);
    LookupEnds(w, k, found, a);
    if w.c.proxy.None? && found.None? && DoesLoad(w, k) {
      labels, w' := LoadSteps(w, labels, w', requestOk, arrivals, a);
      SameLoad(w, w.(holder := InGet(k, AtReset)), requestOk, arrivals, a);
    }
  }

  lemma SameLoad(w: World, w': World, requestOk: bool, arrivals: seq<LoadCallback>, a: InstallAnswer)
    requires SameClient(w, w')
    ensures SameClient(AfterLoad(w, requestOk, arrivals, a), AfterLoad(w', requestOk, arrivals, a))
  {
  }

  lemma LoadSteps(w0: World, labels: seq<Label>, w: World, requestOk: bool, arrivals: seq<LoadCallback>,
        a: InstallAnswer)
    returns (more: seq<Label>, w': World)
    requires Runs(w0, labels, w) && w.holder.InGet? && w.holder.pc == AtReset && w.c.proxy.None?
    ensures Runs(w0, more, w') && w'.holder == NoOne && labels <= more
    ensures SameClient(w', AfterLoad(w, requestOk, arrivals, a))
  {
    var w1;
    more, w1 := RequestSteps(w0, labels, w, requestOk, arrivals);
    WaitEndsWithFirstObject(w.c.(ready := false, loaded := None), arrivals);
    more, w' := TakeSteps(w0, more, w1, a);
  }

  /** Nothing is left of the proxy and its observer, whoever died. */
  function AfterDeath(w: World): World {
    w.(c := ClientState(None, None, false, w.c.loaded, true), watching := w.watching - OwnObserver(w))
  }

  /** A death notice is its three sections, with nothing in between. */
  lemma DeathIsItsSteps(w: World, o: Observer, r: Remote) returns (w': World)
    requires w.holder == NoOne && (o, r) in w.notices
    ensures Runs(w, [Notice(o, r), NoticeReady, NoticeNeedLoad], w') && w'.holder == NoOne
    ensures SameClient(w', AfterDeath(w).(notices := w.notices - {(o, r)}))
  {
    var w1 := DoNotice(w, o, r);
    var w2 := Exec(w1, NoticeReady);
    w' := Exec(w2, NoticeNeedLoad);
    assert Runs(w, [], w);
    RunsOneMore(w, [], w, Notice(o, r), w1);
    RunsOneMore(w, [] + [Notice(o, r)], w1, NoticeReady, w2);
    RunsOneMore(w, [] + [Notice(o, r)] + [NoticeReady], w2, NoticeNeedLoad, w');
    assert [] + [Notice(o, r)] + [NoticeReady] + [NoticeNeedLoad] == [Notice(o, r), NoticeReady, NoticeNeedLoad];
  }

  // The client object

  class SecCompClient {
    var proxy: Option<Remote>
    var serviceDeathObserver: Option<Observer>
    var readyFlag: bool
    var loadedRemoteObject: Option<Remote>
    var serviceAbilityNeedLoadFlag: bool
    /** Death observers registered with the remote objects, and the objects known to be dead. */
    var watching: set<(Observer, Remote)>
    var dead: set<Remote>
    var nextObserver: nat

    constructor ()
      ensures View().c == ClientState(None, None, false, None, false) && watching == {}
    {
      proxy, serviceDeathObserver, readyFlag, loadedRemoteObject, serviceAbilityNeedLoadFlag :=
        None, None, false, None, false;
      watching, dead, nextObserver := {}, {}, 0;
    }

    ghost function View(): World
      reads this
    {
      World(ClientState(proxy, serviceDeathObserver, readyFlag, loadedRemoteObject, serviceAbilityNeedLoadFlag),
            NoOne, map[], watching, {}, dead, nextObserver, [])
    }

    ghost predicate Valid()
      reads this
    {
      forall x :: x in watching ==> x.0 < nextObserver
    }

    method InstallProxyLocked(remoteObject: Option<Remote>, a: InstallAnswer)
      requires Valid()
      modifies this
      ensures Valid()
      ensures SameClient(View(), if remoteObject.Some? then Install(old(View()), remoteObject.value, a)
              else old(View()))
    {
      if remoteObject.None? || !a.allocOk {
        return;
      }
      var r := remoteObject.value;
      var observer := nextObserver;
      nextObserver := nextObserver + 1;
      if !a.addOk || r in dead {
        return;
      }
      watching := watching + {(observer, r)};
      if !a.castOk {
        return;
      }
      if proxy.Some? {
        watching := watching - {(observer, r)};
        assert watching == old(watching);
        return;
      }
      proxy, serviceDeathObserver := Some(r), Some(observer);
    }

    method StartLoadSecCompSa(requestOk: bool) returns (started: bool)
      modifies this`readyFlag, this`loadedRemoteObject
      ensures View() == old(View()).(c := old(View()).c.(ready := false, loaded := None)) && started == requestOk
    {
      readyFlag := false;
      loadedRemoteObject := None;
      started := requestOk;
    }

    method FinishStartSASuccess(remoteObject: Remote)
      modifies this`loadedRemoteObject, this`readyFlag, this`serviceAbilityNeedLoadFlag
      ensures View() == old(View()).(c := AfterCallback(old(View()).c, LoadedObject(Some(remoteObject))))
    {
      loadedRemoteObject := Some(remoteObject);
      readyFlag := true;
      serviceAbilityNeedLoadFlag := false;
    }

    method FinishStartSAFail()
      modifies this`loadedRemoteObject, this`readyFlag
      ensures View() == old(View()).(c := AfterCallback(old(View()).c, LoadFailed))
    {
      loadedRemoteObject := None;
      readyFlag := false;
    }

    /** `arrivals` are the loader's callbacks on other threads until the wait is over. */
    method WaitForSecCompSa(arrivals: seq<LoadCallback>)
      modifies this`loadedRemoteObject, this`readyFlag, this`serviceAbilityNeedLoadFlag
      ensures View() == old(View()).(c := AfterWait(old(View()).c, arrivals))
    {
      var i := 0;
      assert arrivals[0..] == arrivals;
      while !readyFlag && i < |arrivals|
        invariant i <= |arrivals|
        invariant View() == old(View()).(c := View().c)
        invariant AfterWait(View().c, arrivals[i..]) == AfterWait(old(View()).c, arrivals)
      {
        var cb := arrivals[i];
        if cb.LoadedObject? && cb.remote.Some? {
          FinishStartSASuccess(cb.remote.value);
        } else {
          FinishStartSAFail();
        }
        assert arrivals[i..][1..] == arrivals[i + 1..];
        i := i + 1;
      }
    }

    method LoadSecCompSa(requestOk: bool, arrivals: seq<LoadCallback>)
      modifies this`loadedRemoteObject, this`readyFlag, this`serviceAbilityNeedLoadFlag
      ensures var c1 := old(View()).c.(ready := false, loaded := None);
              View() == old(View()).(c := if requestOk then AfterWait(c1, arrivals) else c1)
    {
      var started := StartLoadSecCompSa(requestOk);
      if !started {
        return;
      }
      WaitForSecCompSa(arrivals);
    }

    method GetProxy(doLoadSa: bool, found: Option<Remote>, requestOk: bool, arrivals: seq<LoadCallback>,
          a: InstallAnswer)
      returns (result: Option<Remote>)
      requires Valid()
      modifies this
      ensures Valid() && SameClient(View(), AfterGetProxy(old(View()), doLoadSa, found, requestOk, arrivals, a))
      ensures result == proxy
      ensures old(proxy).Some? ==> result == old(proxy)
      ensures old(proxy).None? ==> forall r: Remote ::
                result == Some(r) <==>
                GoesFor(doLoadSa, found, requestOk, arrivals, r) && InstallsFine(old(View()), r, a)
    {
      GetProxyMeaning(View(), doLoadSa, found, requestOk, arrivals, a);
      if proxy.Some? {
        return proxy;
      }
      if found.Some? {
        InstallProxyLocked(found, a);
        return proxy;
      }
      if !doLoadSa {
        return proxy;
      }
      LoadSecCompSa(requestOk, arrivals);
      var remoteObject := loadedRemoteObject;
      loadedRemoteObject := None;
      if remoteObject.Some? && proxy.None? {
        InstallProxyLocked(remoteObject, a);
      }
      result := proxy;
    }

    method OnRemoteDiedHandle()
      requires Valid()
      modifies this
      ensures Valid() && SameClient(View(), AfterDeath(old(View())))
    {
      if proxy.Some? && serviceDeathObserver.Some? {
        watching := watching - {(serviceDeathObserver.value, proxy.value)};
      }
      proxy, serviceDeathObserver := None, None;
      readyFlag := false;
      serviceAbilityNeedLoadFlag := true;
    }
  }
}
