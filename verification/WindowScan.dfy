/** The scan over all windows for one that covers a component. It stops at the first window that surely does. */
module WindowScan {
  import opened Types
  import opened Geometry
  import opened RoundedRect
  import opened WindowCover

  const INVALID_WINDOW_LAYER := -1
  const UI_EXTENSION_MASK := 0x4000_0000

  /** `distance` is the square root the overlap test takes for this window. */
  datatype WindowInfo = WindowInfo(windowId: int, zOrder: Uint32, rect: WindowRect, floatingScale: real, distance: real)

  function ScaledSize(size: nat, scale: real): nat {
    var n := (size as real * scale).Floor;
    if n < 0 then 0 else n
  }

  function ScaledRect(info: WindowInfo): WindowRect {
    if info.floatingScale != 0.0 then
      info.rect.(width := ScaledSize(info.rect.width, info.floatingScale),
                 height := ScaledSize(info.rect.height, info.floatingScale))
    else info.rect
  }

  /** A scaled window keeps its corner, and its sides are scaled and rounded down; scale 0 stands for none. */
  lemma ScaledSides(info: WindowInfo)
    requires 0.0 <= info.floatingScale
    ensures var (rect, scale) := (ScaledRect(info), if info.floatingScale == 0.0 then 1.0 else info.floatingScale);
            && rect.posX == info.rect.posX && rect.posY == info.rect.posY
            && rect.width as real <= info.rect.width as real * scale < rect.width as real + 1.0
            && rect.height as real <= info.rect.height as real * scale < rect.height as real + 1.0
  {
    if info.floatingScale != 0.0 {
      ScaledSide(info.rect.width, info.floatingScale);
      ScaledSide(info.rect.height, info.floatingScale);
    }
  }

  lemma ScaledSide(size: nat, scale: real)
    requires 0.0 <= scale
    ensures var n := ScaledSize(size, scale); n as real <= size as real * scale < n as real + 1.0
  {
    assert 0.0 <= size as real * scale;
  }

  /** The layer as the code stores it, in a signed 32-bit number. */
  function Layer(info: WindowInfo): int {
    Signed32(info.zOrder)
  }

  predicate IsComponentWindow(info: Option<WindowInfo>, id: int) {
    info.Some? && info.value.windowId == id
  }

  /** The overlap test of each window with this component. */
  function OverlapTest(sec: Rect): WindowInfo -> bool {
    (w: WindowInfo) => IsRectInWindRect(ScaledRect(w), sec, w.distance)
  }

  predicate Overlaps(info: Option<WindowInfo>, id: int, over: WindowInfo -> bool) {
    info.Some? && info.value.windowId != id && over(info.value)
  }

  predicate IsUiExtension(windowId: int) {
    windowId % UINT32_RANGE / UI_EXTENSION_MASK % 2 == 1
  }

  /** Bit 30 of the id, seen as a 32-bit number, tells the windows the scan passes over. */
  lemma PassedIds(id: int, q: int, r: nat)
    requires id == 0x8000_0000 * q + r && r < 0x8000_0000
    ensures IsUiExtension(id) <==> 0x4000_0000 <= r
  {
    var h := q / 2;
    assert id % UINT32_RANGE == id - UINT32_RANGE * h;
    assert id % UINT32_RANGE == r || id % UINT32_RANGE == r + 0x8000_0000;
  }

  // The code

  /** `layers` holds (window id, layer) of the overlapping windows met so far. */
  method IsOtherWindowCoverComp(compLayer: int, layers: seq<(int, int)>) returns (clear: bool)
    ensures clear <==> compLayer != INVALID_WINDOW_LAYER && forall i :: 0 <= i < |layers| ==> layers[i].1 < compLayer
  {
    if compLayer == INVALID_WINDOW_LAYER {
      return false;
    }
    if |layers| == 0 {
      return true;
    }
    for i := 0 to |layers|
      invariant forall j :: 0 <= j < i ==> layers[j].1 < compLayer
    {
      if layers[i].1 >= compLayer {
        return false;
      }
    }
    clear := true;
  }

  /** The layer of the last window of the component among the first `n`. */
  function LayerAfter(infos: seq<Option<WindowInfo>>, n: nat, id: int): int
    requires n <= |infos|
  {
    if n == 0 then INVALID_WINDOW_LAYER
    else if IsComponentWindow(infos[n - 1], id) then Layer(infos[n - 1].value)
    else LayerAfter(infos, n - 1, id)
  }

  predicate Below(infos: seq<Option<WindowInfo>>, j: nat, n: nat, id: int)
    requires j < |infos| && n <= |infos| && infos[j].Some?
  {
    Layer(infos[j].value) < LayerAfter(infos, n, id)
  }

  /** No overlapping window among the first `n` reaches the component's layer known when it was met. */
  ghost predicate NoneReaches(infos: seq<Option<WindowInfo>>, n: nat, id: int, over: WindowInfo -> bool)
    requires n <= |infos|
  {
    forall j: nat :: j < n && Overlaps(infos[j], id, over) ==>
      LayerAfter(infos, j, id) == INVALID_WINDOW_LAYER || Below(infos, j, j, id)
  }

  /** For every list of windows, what the scan decides. */
  ghost predicate Accepts(infos: seq<Option<WindowInfo>>, id: int, over: WindowInfo -> bool) {
    && LayerAfter(infos, |infos|, id) != INVALID_WINDOW_LAYER
    && NoneReaches(infos, |infos|, id, over)
    && forall j: nat :: j < |infos| && Overlaps(infos[j], id, over) ==> Below(infos, j, |infos|, id)
  }

  /** The overlapping windows among the first `n`, as the scan collects them. */
  function Collected(infos: seq<Option<WindowInfo>>, n: nat, id: int, over: WindowInfo -> bool): seq<(int, int)>
    requires n <= |infos|
  {
    if n == 0 then []
    else
      var before := Collected(infos, n - 1, id, over);
      if Overlaps(infos[n - 1], id, over) then before + [(infos[n - 1].value.windowId, Layer(infos[n - 1].value))]
      else before
  }

  lemma OneMoreBelow(before: seq<(int, int)>, mine: seq<(int, int)>, layer: int)
    requires |mine| <= 1
    ensures (forall i :: 0 <= i < |before + mine| ==> (before + mine)[i].1 < layer) <==>
            && (forall i :: 0 <= i < |before| ==> before[i].1 < layer)
            && (mine != [] ==> mine[0].1 < layer)
  {
    var all := before + mine;
    assert forall i :: 0 <= i < |before| ==> all[i] == before[i];
    assert mine != [] ==> all[|before|] == mine[0];
  }

  lemma {:induction false} AllCollectedBelow(infos: seq<Option<WindowInfo>>, n: nat, id: int,
        over: WindowInfo -> bool, layer: int)
    requires n <= |infos|
    ensures (forall i :: 0 <= i < |Collected(infos, n, id, over)| ==> Collected(infos, n, id, over)[i].1 < layer)
       <==> (forall j: nat :: j < n && Overlaps(infos[j], id, over) ==> Layer(infos[j].value) < layer)
  {
    if n > 0 {
      AllCollectedBelow(infos, n - 1, id, over, layer);
      var before, all := Collected(infos, n - 1, id, over), Collected(infos, n, id, over);
      var last := infos[n - 1];
      var mine: seq<(int, int)> := if Overlaps(last, id, over) then [(last.value.windowId, Layer(last.value))] else [];
      assert all == before + mine;
      OneMoreBelow(before, mine, layer);
      assert (forall j: nat :: j < n && Overlaps(infos[j], id, over) ==> Layer(infos[j].value) < layer) <==>
             && (forall j: nat :: j < n - 1 && Overlaps(infos[j], id, over) ==> Layer(infos[j].value) < layer)
             && (Overlaps(last, id, over) ==> Layer(last.value) < layer);
    }
  }

  /**
   `infos` is None when the window manager does not answer. A component whose window id has bit 30
   is always clear. Any other is refused without an answer; a clear answer means that nothing
   covers it, and a refusal that something does, or that its own window is not known.
   */
  method CheckOtherWindowCoverComp(compWinId: int, sec: Rect, infos: Option<seq<Option<WindowInfo>>>)
    returns (clear: bool)
    ensures clear <==> IsUiExtension(compWinId) || (infos.Some? && Accepts(infos.value, compWinId, OverlapTest(sec)))
    ensures AnswerMeans(compWinId, infos, sec, clear)
  {
    AnswerMeaning(compWinId, infos, sec);
    if IsUiExtension(compWinId) {
      return true;
    }
    if infos.None? {
      return false;
    }
    var list := infos.value;
    var over := OverlapTest(sec);
    var compLayer := INVALID_WINDOW_LAYER;
    var layers: seq<(int, int)> := [];
    var i := 0;
    while i < |list|
      invariant i <= |list| && compLayer == LayerAfter(list, i, compWinId)
      invariant layers == Collected(list, i, compWinId, over) && NoneReaches(list, i, compWinId, over)
    {
      if IsComponentWindow(list[i], compWinId) {
        compLayer := Layer(list[i].value);
      } else if Overlaps(list[i], compWinId, over) {
        var layer := Layer(list[i].value);
        layers := layers + [(list[i].value.windowId, layer)];
        if compLayer != INVALID_WINDOW_LAYER && layer >= compLayer {
          assert !NoneReaches(list, |list|, compWinId, over);
          assert layers[|layers| - 1].1 >= compLayer;
          break;
        }
      }
      i := i + 1;
    }
    if i == |list| {
      AllCollectedBelow(list, |list|, compWinId, over, compLayer);
    }
    clear := IsOtherWindowCoverComp(compLayer, layers);
  }

  // The specification by layers as they are stored, with one window of the component

  /** As stored, the layer is a valid one and above the layer of every other window that overlaps. */
  ghost predicate OnTop(infos: seq<Option<WindowInfo>>, id: int, over: WindowInfo -> bool, comp: WindowInfo) {
    && Layer(comp) != INVALID_WINDOW_LAYER
    && forall b :: b in infos && Overlaps(b, id, over) ==> Layer(b.value) < Layer(comp)
  }

  /** The component's window is listed at most once. */
  ghost predicate OneComponentWindow(infos: seq<Option<WindowInfo>>, id: int) {
    var m := multiset(infos);
    forall a, b :: a in m && b in m && IsComponentWindow(a, id) && IsComponentWindow(b, id) ==> a == b && m[a] == 1
  }

  lemma {:induction false} LayerOf(infos: seq<Option<WindowInfo>>, n: nat, id: int) returns (c: nat)
    requires n <= |infos| && LayerAfter(infos, n, id) != INVALID_WINDOW_LAYER
    ensures c < n && IsComponentWindow(infos[c], id) && Layer(infos[c].value) == LayerAfter(infos, n, id)
  {
    if IsComponentWindow(infos[n - 1], id) {
      c := n - 1;
    } else {
      c := LayerOf(infos, n - 1, id);
    }
  }

  /** A list is accepted only if its last window of the component is on top. */
  lemma LastIsOnTop(infos: seq<Option<WindowInfo>>, id: int, over: WindowInfo -> bool) returns (c: nat)
    requires Accepts(infos, id, over)
    ensures c < |infos| && IsComponentWindow(infos[c], id) && OnTop(infos, id, over, infos[c].value)
    ensures Layer(infos[c].value) == LayerAfter(infos, |infos|, id)
  {
    c := LayerOf(infos, |infos|, id);
    forall b | b in infos && Overlaps(b, id, over) ensures Layer(b.value) < Layer(infos[c].value) {
      var j: nat :| j < |infos| && infos[j] == b;
      assert Below(infos, j, |infos|, id);
    }
  }

  /** If every window of the component is on top, and there is one, the list is accepted. */
  lemma AllOnTop(infos: seq<Option<WindowInfo>>, id: int, over: WindowInfo -> bool, a: Option<WindowInfo>)
    requires a in infos && IsComponentWindow(a, id)
    requires forall c :: c in infos && IsComponentWindow(c, id) ==> OnTop(infos, id, over, c.value)
    ensures Accepts(infos, id, over)
  {
    var c: nat :| c < |infos| && infos[c] == a;
    SomeLayer(infos, |infos|, id, over, c);
    forall j: nat | j < |infos| && Overlaps(infos[j], id, over)
      ensures Below(infos, j, |infos|, id) &&
              (LayerAfter(infos, j, id) == INVALID_WINDOW_LAYER || Below(infos, j, j, id))
    {
      assert infos[j] in infos;
      var last := LayerOf(infos, |infos|, id);
      assert infos[last] in infos;
      if LayerAfter(infos, j, id) != INVALID_WINDOW_LAYER {
        var before := LayerOf(infos, j, id);
        assert infos[before] in infos;
      }
    }
  }

  lemma {:induction false} SomeLayer(infos: seq<Option<WindowInfo>>, n: nat, id: int, over: WindowInfo -> bool, c: nat)
    requires c < n <= |infos| && IsComponentWindow(infos[c], id)
    requires forall a :: a in infos && IsComponentWindow(a, id) ==> OnTop(infos, id, over, a.value)
    ensures LayerAfter(infos, n, id) != INVALID_WINDOW_LAYER
  {
    assert infos[n - 1] in infos;
    if !IsComponentWindow(infos[n - 1], id) {
      SomeLayer(infos, n - 1, id, over, c);
    }
  }

  /** With one window of the component the scan and its early stop accept exactly when that window is on top. */
  lemma ScanIsOnTop(infos: seq<Option<WindowInfo>>, id: int, over: WindowInfo -> bool)
    requires OneComponentWindow(infos, id)
    ensures Accepts(infos, id, over) <==>
            exists a :: a in infos && IsComponentWindow(a, id) && OnTop(infos, id, over, a.value)
  {
    if Accepts(infos, id, over) {
      var c := LastIsOnTop(infos, id, over);
      assert infos[c] in infos;
    }
    if a :| a in infos && IsComponentWindow(a, id) && OnTop(infos, id, over, a.value) {
      forall c | c in infos && IsComponentWindow(c, id) ensures c == a {
        assert c in multiset(infos) && a in multiset(infos);
      }
      AllOnTop(infos, id, over, a);
    }
  }

  // The specification by layers as the window manager gives them

  ghost predicate AllLower(infos: seq<Option<WindowInfo>>, id: int, over: WindowInfo -> bool, comp: WindowInfo) {
    forall b :: b in infos && Overlaps(b, id, over) ==> b.value.zOrder < comp.zOrder
  }

  /** The component's window is there, and every other window that overlaps is strictly below it. */
  ghost predicate Uncovered(infos: seq<Option<WindowInfo>>, id: int, over: WindowInfo -> bool) {
    exists a :: a in infos && IsComponentWindow(a, id) && AllLower(infos, id, over, a.value)
  }

  predicate Huge(info: WindowInfo) {
    info.zOrder >= INT32_RANGE
  }

  /** Some other window that overlaps has a layer of 2^31 or more; or has a smaller one. */
  ghost predicate SomeOver(infos: seq<Option<WindowInfo>>, id: int, over: WindowInfo -> bool, huge: bool) {
    exists b :: b in infos && Overlaps(b, id, over) && Huge(b.value) == huge
  }

  /** Every other window that overlaps and is not huge is below the component's. */
  ghost predicate SmallOnesLower(infos: seq<Option<WindowInfo>>, id: int, over: WindowInfo -> bool, comp: WindowInfo) {
    forall b :: b in infos && Overlaps(b, id, over) && !Huge(b.value) ==> b.value.zOrder < comp.zOrder
  }

  lemma OnlyWindow(infos: seq<Option<WindowInfo>>, id: int, over: WindowInfo -> bool, a: Option<WindowInfo>)
    requires OneComponentWindow(infos, id) && a in infos && IsComponentWindow(a, id)
    ensures Accepts(infos, id, over) <==> OnTop(infos, id, over, a.value)
    ensures Uncovered(infos, id, over) <==> AllLower(infos, id, over, a.value)
  {
    ScanIsOnTop(infos, id, over);
    forall c | c in infos && IsComponentWindow(c, id) ensures c == a {
      assert c in multiset(infos) && a in multiset(infos);
    }
  }

  /**
   Exactly when the scan is wrong about a component whose window, `a`, is listed once. It
   accepts a covered one when only huge layers cover it, which are negative as stored; and
   it refuses an uncovered one when the component's own layer is huge, and either reads as
   no layer at all or is below a smaller one as stored.
   */
  lemma ScanMisses(infos: seq<Option<WindowInfo>>, id: int, over: WindowInfo -> bool, a: Option<WindowInfo>)
    requires OneComponentWindow(infos, id) && a in infos && IsComponentWindow(a, id)
    ensures Accepts(infos, id, over) && !Uncovered(infos, id, over) <==>
            !Huge(a.value) && SomeOver(infos, id, over, true) && SmallOnesLower(infos, id, over, a.value)
    ensures Uncovered(infos, id, over) && !Accepts(infos, id, over) <==>
            && Huge(a.value) && AllLower(infos, id, over, a.value)
            && (a.value.zOrder == UINT32_RANGE - 1 || SomeOver(infos, id, over, false))
  {
    OnlyWindow(infos, id, over, a);
    MissesCovered(infos, id, over, a.value);
    MissesFree(infos, id, over, a.value);
  }

  lemma MissesCovered(infos: seq<Option<WindowInfo>>, id: int, over: WindowInfo -> bool, comp: WindowInfo)
    ensures OnTop(infos, id, over, comp) && !AllLower(infos, id, over, comp) <==>
            !Huge(comp) && SomeOver(infos, id, over, true) && SmallOnesLower(infos, id, over, comp)
  {
  }

  lemma MissesFree(infos: seq<Option<WindowInfo>>, id: int, over: WindowInfo -> bool, comp: WindowInfo)
    ensures AllLower(infos, id, over, comp) && !OnTop(infos, id, over, comp) <==>
            && Huge(comp) && AllLower(infos, id, over, comp)
            && (comp.zOrder == UINT32_RANGE - 1 || SomeOver(infos, id, over, false))
  {
  }

  /** The simple specification is met whenever no layer is huge. */
  lemma ScanIsSimple(infos: seq<Option<WindowInfo>>, id: int, over: WindowInfo -> bool)
    requires OneComponentWindow(infos, id) && forall b :: b in infos && b.Some? ==> !Huge(b.value)
    ensures Accepts(infos, id, over) <==> Uncovered(infos, id, over)
  {
    ScanIsOnTop(infos, id, over);
    if a :| a in infos && IsComponentWindow(a, id) {
      ScanMisses(infos, id, over, a);
    }
  }

  // The order of the list

  lemma SameMembers<T>(s: seq<T>, s': seq<T>)
    requires multiset(s) == multiset(s')
    ensures forall x :: x in s <==> x in s'
  {
    forall x ensures x in s <==> x in s' {
      assert x in s <==> x in multiset(s);
      assert x in s' <==> x in multiset(s');
    }
  }

  /** With one window of the component, the order in which the window manager lists the windows does not matter. */
  lemma OrderDoesNotMatter(infos: seq<Option<WindowInfo>>, infos': seq<Option<WindowInfo>>, id: int,
        over: WindowInfo -> bool)
    requires multiset(infos) == multiset(infos') && OneComponentWindow(infos, id)
    ensures Accepts(infos, id, over) <==> Accepts(infos', id, over)
  {
    SameMembers(infos, infos');
    ScanIsOnTop(infos, id, over);
    ScanIsOnTop(infos', id, over);
  }

  /** If a window of the component is on top, then all of them are. */
  ghost predicate AllOrNone(infos: seq<Option<WindowInfo>>, id: int, over: WindowInfo -> bool) {
    forall a, c :: a in infos && c in infos && IsComponentWindow(a, id) && IsComponentWindow(c, id) ==>
      OnTop(infos, id, over, a.value) == OnTop(infos, id, over, c.value)
  }

  ghost predicate SameAnswer(infos: seq<Option<WindowInfo>>, id: int, over: WindowInfo -> bool) {
    forall p :: multiset(p) == multiset(infos) ==> (Accepts(p, id, over) <==> Accepts(infos, id, over))
  }

  /** Entry `i` moved to the end. */
  function MoveLast<T>(s: seq<T>, i: nat): seq<T>
    requires i < |s|
  {
    s[..i] + s[i + 1..] + [s[i]]
  }

  lemma MoveLastKeeps<T>(s: seq<T>, i: nat)
    requires i < |s|
    ensures multiset(MoveLast(s, i)) == multiset(s)
  {
    assert s == s[..i] + ([s[i]] + s[i + 1..]);
  }

  /** The other windows first, then those of the component. */
  function OthersFirst(infos: seq<Option<WindowInfo>>, id: int): (seq<Option<WindowInfo>>, seq<Option<WindowInfo>>) {
    if infos == [] then ([], [])
    else
      var (others, mine) := OthersFirst(infos[1..], id);
      if IsComponentWindow(infos[0], id) then (others, [infos[0]] + mine) else ([infos[0]] + others, mine)
  }

  lemma {:induction false} OthersFirstKeeps(infos: seq<Option<WindowInfo>>, id: int)
    ensures var (others, mine) := OthersFirst(infos, id);
            && multiset(others + mine) == multiset(infos)
            && (forall a :: a in others ==> !IsComponentWindow(a, id)) &&
                 (forall a :: a in mine ==> IsComponentWindow(a, id))
  {
    if infos != [] {
      OthersFirstKeeps(infos[1..], id);
      assert infos == [infos[0]] + infos[1..];
      var (others, mine) := OthersFirst(infos[1..], id);
      assert multiset(others + mine) == multiset(others) + multiset(mine);
    }
  }

  lemma {:induction false} NoLayerYet(infos: seq<Option<WindowInfo>>, n: nat, id: int)
    requires n <= |infos| && forall i :: 0 <= i < n ==> !IsComponentWindow(infos[i], id)
    ensures LayerAfter(infos, n, id) == INVALID_WINDOW_LAYER
  {
    if n > 0 {
      NoLayerYet(infos, n - 1, id);
    }
  }

  /** Listed last, after all other windows, a window on top is accepted. */
  lemma TopLastIsAccepted(others: seq<Option<WindowInfo>>, mine: seq<Option<WindowInfo>>, k: nat, id: int,
      over: WindowInfo -> bool)
    requires (forall a :: a in others ==> !IsComponentWindow(a, id)) &&
             (forall a :: a in mine ==> IsComponentWindow(a, id))
    requires k < |mine| && IsComponentWindow(mine[k], id) && OnTop(others + mine, id, over, mine[k].value)
    ensures Accepts(others + MoveLast(mine, k), id, over)
  {
    var p := others + MoveLast(mine, k);
    assert p[|p| - 1] == mine[k];
    forall j | |others| <= j < |p| ensures IsComponentWindow(p[j], id) {
      assert p[j] == MoveLast(mine, k)[j - |others|] && p[j] in mine;
    }
    forall j: nat | j < |p| && Overlaps(p[j], id, over)
      ensures Below(p, j, |p|, id) && LayerAfter(p, j, id) == INVALID_WINDOW_LAYER
    {
      NoLayerYet(p, j, id);
      assert p[j] in others + mine;
    }
  }

  /** Listed last, a window is accepted only if it is on top. */
  lemma OnlyTopLastIsAccepted(infos: seq<Option<WindowInfo>>, i: nat, id: int, over: WindowInfo -> bool)
    requires i < |infos| && IsComponentWindow(infos[i], id) && Accepts(MoveLast(infos, i), id, over)
    ensures OnTop(infos, id, over, infos[i].value)
  {
    var p := MoveLast(infos, i);
    MoveLastKeeps(infos, i);
    SameMembers(infos, p);
    var c := LastIsOnTop(p, id, over);
    assert Layer(p[c].value) == Layer(infos[i].value);
  }

  lemma OneOrderAccepts(infos: seq<Option<WindowInfo>>, a: Option<WindowInfo>, id: int, over: WindowInfo -> bool)
    returns (p: seq<Option<WindowInfo>>)
    requires a in infos && IsComponentWindow(a, id) && OnTop(infos, id, over, a.value)
    ensures multiset(p) == multiset(infos) && Accepts(p, id, over)
  {
    OthersFirstKeeps(infos, id);
    var (others, mine) := OthersFirst(infos, id);
    SameMembers(infos, others + mine);
    assert a in others + mine;
    var k: nat :| k < |mine| && mine[k] == a;
    p := others + MoveLast(mine, k);
    MoveLastKeeps(mine, k);
    assert multiset(p) == multiset(others) + multiset(mine) == multiset(others + mine);
    TopLastIsAccepted(others, mine, k, id, over);
  }

  /**
   However often the component's window is listed: all orders of the list get the same answer
   exactly when its windows are all on top, or none is.
   */
  lemma OrderMattersOnlyBetweenLayers(infos: seq<Option<WindowInfo>>, id: int, over: WindowInfo -> bool)
    ensures SameAnswer(infos, id, over) <==> AllOrNone(infos, id, over)
  {
    if AllOrNone(infos, id, over) {
      forall p | multiset(p) == multiset(infos) ensures Accepts(p, id, over) <==> Accepts(infos, id, over) {
        SameMembers(infos, p);
        AnswerOfAllOrNone(infos, id, over);
        AnswerOfAllOrNone(p, id, over);
      }
    } else {
      var a, c :| a in infos && c in infos && IsComponentWindow(a, id) && IsComponentWindow(c, id)
                  && OnTop(infos, id, over, a.value) && !OnTop(infos, id, over, c.value);
      var p := OneOrderAccepts(infos, a, id, over);
      var i: nat :| i < |infos| && infos[i] == c;
      var q := MoveLast(infos, i);
      MoveLastKeeps(infos, i);
      if Accepts(q, id, over) {
        OnlyTopLastIsAccepted(infos, i, id, over);
      }
      assert multiset(p) == multiset(infos) && multiset(q) == multiset(infos);
      assert Accepts(p, id, over) != Accepts(q, id, over);
    }
  }

  lemma AnswerOfAllOrNone(infos: seq<Option<WindowInfo>>, id: int, over: WindowInfo -> bool)
    requires AllOrNone(infos, id, over)
    ensures Accepts(infos, id, over) <==>
            exists a :: a in infos && IsComponentWindow(a, id) && OnTop(infos, id, over, a.value)
  {
    if Accepts(infos, id, over) {
      var c := LastIsOnTop(infos, id, over);
      assert infos[c] in infos;
    }
    if a :| a in infos && IsComponentWindow(a, id) && OnTop(infos, id, over, a.value) {
      AllOnTop(infos, id, over, a);
    }
  }

  // What an answer says about the component

  /** The windows are such that the overlap test is right about each, and its square roots are. */
  ghost predicate Tested(infos: seq<Option<WindowInfo>>, sec: Rect) {
    RadiiFit(sec) && forall b :: b in infos && b.Some? ==>
      && Int32Edges(ScaledRect(b.value)) && EdgesOnScreen(ScaledRect(b.value))
      && IsTestedDistance(ScaledRect(b.value), sec, b.value.distance)
  }

  /** Another window, stored at the component's layer or above. */
  predicate AtOrAbove(info: Option<WindowInfo>, id: int, layer: int) {
    info.Some? && info.value.windowId != id && Layer(info.value) >= layer
  }

  /**
   A clear answer: no other window at the component's layer or above shares more of it than what
   lies along one corner's arc.
   */
  lemma ClearIsClear(infos: seq<Option<WindowInfo>>, id: int, sec: Rect, b: Option<WindowInfo>)
    requires Tested(infos, sec) && Accepts(infos, id, OverlapTest(sec))
    requires b in infos && AtOrAbove(b, id, LayerAfter(infos, |infos|, id))
    ensures var wind := ScaledRect(b.value); PlainlyApart(wind, sec) || exists k :: SharesOnlyArc(wind, sec, k)
  {
    var c := LastIsOnTop(infos, id, OverlapTest(sec));
    OverlapDecides(ScaledRect(b.value), sec, b.value.distance);
    assert !Overlaps(b, id, OverlapTest(sec));
  }

  /**
   A refusal, of a component with one window at a valid layer: some other window at that layer
   or above shares a point with it.
   */
  lemma RefusalIsCovered(infos: seq<Option<WindowInfo>>, id: int, sec: Rect, a: Option<WindowInfo>)
    returns (b: Option<WindowInfo>)
    requires Tested(infos, sec) && OneComponentWindow(infos, id) && !Accepts(infos, id, OverlapTest(sec))
    requires a in infos && IsComponentWindow(a, id) && Layer(a.value) != INVALID_WINDOW_LAYER
    ensures b in infos && AtOrAbove(b, id, Layer(a.value)) && Share(ScaledRect(b.value), sec)
  {
    var over := OverlapTest(sec);
    OnlyWindow(infos, id, over, a);
    b :| b in infos && Overlaps(b, id, over) && Layer(b.value) >= Layer(a.value);
    OverlapDecides(ScaledRect(b.value), sec, b.value.distance);
  }

  /** No other window at the component's layer or above shares more with it than what lies along a corner's arc. */
  ghost predicate Free(infos: seq<Option<WindowInfo>>, id: int, sec: Rect) {
    forall b :: b in infos && AtOrAbove(b, id, LayerAfter(infos, |infos|, id)) ==>
      PlainlyApart(ScaledRect(b.value), sec) || exists k :: SharesOnlyArc(ScaledRect(b.value), sec, k)
  }

  /** Some other window at this layer or above shares a point with the component. */
  ghost predicate CoveredAt(infos: seq<Option<WindowInfo>>, id: int, sec: Rect, layer: int) {
    exists b :: b in infos && AtOrAbove(b, id, layer) && Share(ScaledRect(b.value), sec)
  }

  lemma ScanMeaning(infos: seq<Option<WindowInfo>>, id: int, sec: Rect)
    requires Tested(infos, sec)
    ensures Accepts(infos, id, OverlapTest(sec)) ==>
            (exists a :: a in infos && IsComponentWindow(a, id)) && Free(infos, id, sec)
    ensures !Accepts(infos, id, OverlapTest(sec)) && OneComponentWindow(infos, id) ==>
            forall a :: a in infos && IsComponentWindow(a, id) && a.value.zOrder != 0xFFFF_FFFF ==>
              CoveredAt(infos, id, sec, Layer(a.value))
  {
    if Accepts(infos, id, OverlapTest(sec)) {
      var c := LastIsOnTop(infos, id, OverlapTest(sec));
      forall b | b in infos && AtOrAbove(b, id, LayerAfter(infos, |infos|, id))
        ensures PlainlyApart(ScaledRect(b.value), sec) || exists k :: SharesOnlyArc(ScaledRect(b.value), sec, k)
      {
        ClearIsClear(infos, id, sec, b);
      }
    } else if OneComponentWindow(infos, id) {
      forall a | a in infos && IsComponentWindow(a, id) && a.value.zOrder != 0xFFFF_FFFF
        ensures CoveredAt(infos, id, sec, Layer(a.value))
      {
        var b := RefusalIsCovered(infos, id, sec, a);
      }
    }
  }

  /** What an answer about a component means, by its window's id. */
  ghost predicate AnswerMeans(id: int, infos: Option<seq<Option<WindowInfo>>>, sec: Rect, clear: bool) {
    if 0x4000_0000 <= id % 0x8000_0000 then clear
    else if infos.None? then !clear
    else if !Tested(infos.value, sec) then true
    else if clear then
      (exists a :: a in infos.value && IsComponentWindow(a, id)) && Free(infos.value, id, sec)
    else
      OneComponentWindow(infos.value, id) ==>
        forall a :: a in infos.value && IsComponentWindow(a, id) && a.value.zOrder != 0xFFFF_FFFF ==>
          CoveredAt(infos.value, id, sec, Layer(a.value))
  }

  lemma AnswerMeaning(id: int, infos: Option<seq<Option<WindowInfo>>>, sec: Rect)
    ensures AnswerMeans(id, infos, sec, IsUiExtension(id) || (infos.Some? && Accepts(infos.value, id, OverlapTest(sec))))
  {
    PassedIds(id, id / 0x8000_0000, id % 0x8000_0000);
    if infos.Some? && Tested(infos.value, sec) {
      ScanMeaning(infos.value, id, sec);
    }
  }

  // Two lists of windows

  const SAMPLE_AREA := WindowRect(0, 0, 100, 100)
  const SAMPLE_RECT := Rect(10.0, 10.0, 50.0, 50.0, BorderRadius(0.0, 0.0, 0.0, 0.0))

  function Window(id: int, zOrder: Uint32): Option<WindowInfo> {
    Some(WindowInfo(id, zOrder, SAMPLE_AREA, 0.0, 0.0))
  }

  lemma SampleOverlaps(id: int, zOrder: Uint32)
    ensures Overlaps(Window(id, zOrder), 1, OverlapTest(SAMPLE_RECT)) <==> id != 1
  {
    assert TestedCorner(SAMPLE_AREA, SAMPLE_RECT).None?;
  }

  /** Listed twice, the component's window makes the answer depend on the order. */
  lemma ListedTwiceDependsOnOrder()
    ensures var (a, b, c) := (Window(1, 5), Window(2, 7), Window(1, 9));
            !Accepts([a, b, c], 1, OverlapTest(SAMPLE_RECT)) && Accepts([b, a, c], 1, OverlapTest(SAMPLE_RECT))
  {
    var (a, b, c) := (Window(1, 5), Window(2, 7), Window(1, 9));
    var over, s, s' := OverlapTest(SAMPLE_RECT), [a, b, c], [b, a, c];
    SampleOverlaps(2, 7);
    assert LayerAfter(s, 1, 1) == 5 by { assert LayerAfter(s, 0, 1) == INVALID_WINDOW_LAYER; }
    assert Overlaps(s[1], 1, over) && !Below(s, 1, 1, 1);
    assert !NoneReaches(s, 3, 1, over);
    assert LayerAfter(s', 0, 1) == INVALID_WINDOW_LAYER && LayerAfter(s', 3, 1) == 9;
    forall j: nat | j < 3 && Overlaps(s'[j], 1, over) ensures j == 0 {
    }
    assert Below(s', 0, 3, 1);
  }

  /** A layer too large for a signed number counts as below every component. */
  lemma HugeLayerIsMissed()
    ensures var s := [Window(1, 5), Window(2, INT32_RANGE)];
            Accepts(s, 1, OverlapTest(SAMPLE_RECT)) && !Uncovered(s, 1, OverlapTest(SAMPLE_RECT))
  {
    var (a, b) := (Window(1, 5), Window(2, INT32_RANGE));
    var over, s := OverlapTest(SAMPLE_RECT), [a, b];
    SampleOverlaps(2, INT32_RANGE);
    forall x | x in s && IsComponentWindow(x, 1) ensures x == a && OnTop(s, 1, over, x.value) {
      assert forall y :: y in s ==> y == a || y == b;
    }
    AllOnTop(s, 1, over, a);
    assert b in s && Overlaps(b, 1, over);
  }
}
