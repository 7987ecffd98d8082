/**
 The description of a button as JSON: what the service accepts from an
 application, and what the client library writes.
 */
module ComponentJson {
  import opened Types
  import opened Geometry
  import opened Json

  const UNKNOWN_TEXT := -2
  const UNKNOWN_ICON := -2
  const PICTURE_ICON := 2
  const NO_ROUNDING := BorderRadius(0.0, 0.0, 0.0, 0.0)

  datatype Padding = Padding(top: real, right: real, bottom: real, left: real)

  datatype Size = Size(fontSize: real, iconSize: real, textIconSpace: real, padding: Padding,
        borderRadius: BorderRadius)

  type Color = n: nat | n < UINT32_RANGE
  type DisplayId = n: nat | n < UINT64_RANGE

  datatype Colors = Colors(fontColor: Color, iconColor: Color, bgColor: Color)

  datatype Parent = Parent(
    parentEffect: bool, isClipped: bool, topClip: real, bottomClip: real, leftClip: real, rightClip: real,
    parentTag: string)

  datatype Style = Style(text: Int32, icon: Int32, bg: Int32)

  datatype Changes = Changes(
    hasNonCompatibleChange: bool, isIconExceeded: bool, isBorderCovered: bool, blurRadius: real,
    foregroundBlurRadius: real, isOverlayTextSet: bool, isOverlayNodeCovered: bool)

  /** The serialised fields of a button; the rectangles' corner radii come with the size. */
  datatype ButtonInfo = ButtonInfo(
    ty: SecCompType, nodeId: Int32, isWearable: bool, parent: Parent, rect: Rect, size: Size, colors: Colors,
    borderWidth: real, style: Style, isArkuiComponent: bool, isSmartEdgeState: bool, windowRect: Rect,
    windowId: Int32, displayId: DisplayId, crossAxis: CrossAxisState, isCustomizable: bool,
    tipPosition: Int32, changes: Changes)

  const EMPTY_RECT := Rect(0.0, 0.0, 0.0, 0.0, NO_ROUNDING)

  const NEW_BUTTON := ButtonInfo(
    Unknown, 0, false, Parent(false, false, 0.0, 0.0, 0.0, 0.0, ""), EMPTY_RECT,
    Size(0.0, 0.0, 0.0, Padding(0.0, 0.0, 0.0, 0.0), NO_ROUNDING), Colors(0, 0, 0), 0.0,
    Style(UNKNOWN_TEXT, UNKNOWN_ICON, -2), false, false, EMPTY_RECT, 0, 0,
    StateInvalid, false, 0, Changes(false, false, false, 0.0, 0.0, false, false))

  // Single values

  /** A dimension has to be written as a floating-point number. */
  function DimensionAt(j: Json, tag: string): Option<real> {
    var v := Find(j, tag);
    if v.Some? && v.value.JFloat? then Some(v.value.r) else None
  }

  function BoolAt(j: Json, tag: string): Option<bool> {
    var v := Find(j, tag);
    if v.Some? && v.value.JBool? then Some(v.value.b) else None
  }

  function StringAt(j: Json, tag: string): Option<string> {
    var v := Find(j, tag);
    if v.Some? && v.value.JString? then Some(v.value.s) else None
  }

  function Int32At(j: Json, tag: string): Option<Int32> {
    var v := Find(j, tag);
    if v.Some? && IsNumber(v.value) then Some(ToInt32(v.value)) else None
  }

  function ColorAt(j: Json, tag: string): Option<Color> {
    var v := Find(j, tag);
    if v.Some? && IsNumber(v.value) then Some(ToUnsigned(v.value, UINT32_RANGE)) else None
  }

  function DisplayIdAt(j: Json, tag: string): Option<DisplayId> {
    var v := Find(j, tag);
    if v.Some? && IsNumber(v.value) then Some(ToUnsigned(v.value, UINT64_RANGE)) else None
  }

  function ObjectAt(j: Json, tag: string): Option<Json> {
    var v := Find(j, tag);
    if v.Some? && v.value.JObject? then v else None
  }

  // Groups of values

  function ParsePadding(j: Json): Option<Padding> {
    var (top, right, bottom, left) :=
        (DimensionAt(j, "top"), DimensionAt(j, "right"), DimensionAt(j, "bottom"), DimensionAt(j, "left"));
    if top.Some? && right.Some? && bottom.Some? && left.Some? then
      Some(Padding(top.value, right.value, bottom.value, left.value))
    else None
  }

  function PaddingJson(p: Padding): Json {
    JObject(map["top" := JFloat(p.top), "right" := JFloat(p.right), "bottom" := JFloat(p.bottom),
      "left" := JFloat(p.left)])
  }

  function ParseBorderRadius(j: Json): Option<BorderRadius> {
    var (leftTop, rightTop) := (DimensionAt(j, "leftTop"), DimensionAt(j, "rightTop"));
    var (leftBottom, rightBottom) := (DimensionAt(j, "leftBottom"), DimensionAt(j, "rightBottom"));
    if leftTop.Some? && rightTop.Some? && leftBottom.Some? && rightBottom.Some? then
      Some(BorderRadius(leftTop.value, rightTop.value, leftBottom.value, rightBottom.value))
    else None
  }

  function BorderRadiusJson(r: BorderRadius): Json {
    JObject(map["leftTop" := JFloat(r.leftTop), "rightTop" := JFloat(r.rightTop),
                "leftBottom" := JFloat(r.leftBottom), "rightBottom" := JFloat(r.rightBottom)])
  }

  function ParseSize(j: Json): Option<Size> {
    var (font, icon, space) := (DimensionAt(j, "fontSize"), DimensionAt(j, "iconSize"),
        DimensionAt(j, "textIconSpace"));
    var (padding, radius) := (ObjectAt(j, "paddingSize"), ObjectAt(j, "borderRadius"));
    if font.Some? && icon.Some? && space.Some? && padding.Some? && radius.Some? then
      var (p, r) := (ParsePadding(padding.value), ParseBorderRadius(radius.value));
      if p.Some? && r.Some? then Some(Size(font.value, icon.value, space.value, p.value, r.value)) else None
    else None
  }

  function SizeJson(s: Size): Json {
    JObject(map["fontSize" := JFloat(s.fontSize), "iconSize" := JFloat(s.iconSize),
                "textIconSpace" := JFloat(s.textIconSpace),
                "paddingSize" := PaddingJson(s.padding), "borderRadius" := BorderRadiusJson(s.borderRadius)])
  }

  function ParseColors(j: Json): Option<Colors> {
    var (font, icon, bg) := (ColorAt(j, "fontColor"), ColorAt(j, "iconColor"), ColorAt(j, "bgColor"));
    if font.Some? && icon.Some? && bg.Some? then Some(Colors(font.value, icon.value, bg.value)) else None
  }

  function ColorsJson(c: Colors): Json {
    JObject(map["fontColor" := JInt(c.fontColor), "iconColor" := JInt(c.iconColor), "bgColor" := JInt(c.bgColor)])
  }

  function ParseParent(j: Json): Option<Parent> {
    var (effect, clipped) := (BoolAt(j, "parentEffect"), BoolAt(j, "isClipped"));
    var (top, bottom, left, right) :=
      (DimensionAt(j, "topClip"), DimensionAt(j, "bottomClip"), DimensionAt(j, "leftClip"),
        DimensionAt(j, "rightClip"));
    var tag := StringAt(j, "parentTag");
    if effect.Some? && clipped.Some? && top.Some? && bottom.Some? && left.Some? && right.Some? && tag.Some? then
      Some(Parent(effect.value, clipped.value, top.value, bottom.value, left.value, right.value, tag.value))
    else None
  }

  function ParentJson(p: Parent): Json {
    JObject(map["parentEffect" := JBool(p.parentEffect), "isClipped" := JBool(p.isClipped),
                "topClip" := JFloat(p.topClip), "bottomClip" := JFloat(p.bottomClip),
                "leftClip" := JFloat(p.leftClip), "rightClip" := JFloat(p.rightClip),
                  "parentTag" := JString(p.parentTag)])
  }

  /** A rectangle keeps the corner radii it had. */
  function ParseRect(j: Json, radius: BorderRadius): Option<Rect> {
    var (x, y, w, h) := (DimensionAt(j, "x"), DimensionAt(j, "y"), DimensionAt(j, "width"), DimensionAt(j, "height"));
    if x.Some? && y.Some? && w.Some? && h.Some? then Some(Rect(x.value, y.value, w.value, h.value, radius)) else None
  }

  function RectJson(r: Rect): Json {
    JObject(map["x" := JFloat(r.x), "y" := JFloat(r.y), "width" := JFloat(r.width), "height" := JFloat(r.height)])
  }

  /** Who asks: the class of button being parsed, whether it was clicked, and whether a system application calls. */
  datatype Asker = Asker(kind: SecCompType, isClicked: bool, isSystemApp: bool)

  predicate TextIconValid(text: Int32, icon: Int32, who: Asker) {
    && UNKNOWN_TEXT < text && UNKNOWN_ICON < icon
    && match who.kind
       case Location => text < 11 && icon < 2
       case Paste => text < 1 && icon < 2
       case Save => text < 13 && icon < 3 && !(who.isClicked && icon == PICTURE_ICON && !who.isSystemApp)
       case Unknown => false
  }

  predicate BackgroundValid(bg: Int32) {
    bg == -1 || bg == 0 || bg == 1 || bg == 2 || bg == 8
  }

  function ParseStyle(j: Json, who: Asker): Option<Style> {
    var (text, icon, bg) := (Int32At(j, "text"), Int32At(j, "icon"), Int32At(j, "bg"));
    if text.Some? && icon.Some? && bg.Some? && TextIconValid(text.value, icon.value, who) &&
      BackgroundValid(bg.value) then
      Some(Style(text.value, icon.value, bg.value))
    else None
  }

  function StyleJson(s: Style): Json {
    JObject(map["text" := JInt(s.text), "icon" := JInt(s.icon), "bg" := JInt(s.bg)])
  }

  function ParseChanges(j: Json): Option<Changes> {
    var (change, icon, border) := (BoolAt(j, "hasNonCompatibleChange"), BoolAt(j, "isIconExceeded"),
        BoolAt(j, "isBorderCovered"));
    var (blur, foreground) := (DimensionAt(j, "blurRadius"), DimensionAt(j, "foregroundBlurRadius"));
    var (text, node) := (BoolAt(j, "isOverlayTextSet"), BoolAt(j, "isOverlayNodeCovered"));
    if change.Some? && icon.Some? && border.Some? && blur.Some? && foreground.Some? && text.Some? && node.Some? then
      Some(Changes(change.value, icon.value, border.value, blur.value, foreground.value, text.value, node.value))
    else None
  }

  function TypeOf(n: Int32): SecCompType {
    if n == 1 then Location else if n == 2 then Paste else if n == 3 then Save else Unknown
  }

  function TypeNumber(t: SecCompType): Int32 {
    match t
    case Unknown => 0
    case Location => 1
    case Paste => 2
    case Save => 3
  }

  function CrossAxisOf(n: Int32): Option<CrossAxisState> {
    if n == 0 then Some(StateInvalid) else if n == 1 then Some(StateCross) else if n == 2 then Some(StateNoCross)
      else None
  }

  function CrossAxisNumber(s: CrossAxisState): Int32 {
    match s
    case StateInvalid => 0
    case StateCross => 1
    case StateNoCross => 2
  }

  function ParseType(j: Json): Option<SecCompType> {
    var n := Int32At(j, "type");
    if n.Some? && TypeOf(n.value) != Unknown then Some(TypeOf(n.value)) else None
  }

  function ParseCrossAxisState(j: Json): Option<CrossAxisState> {
    var n := Int32At(j, "crossAxisState");
    if n.Some? then CrossAxisOf(n.value) else None
  }

  predicate TipPositionValid(n: Int32) {
    0 <= n <= 1
  }

  function ParseTipPosition(j: Json): Option<Int32> {
    var n := Int32At(j, "tipPosition");
    if n.Some? && TipPositionValid(n.value) then n else None
  }

  function In<T>(o: Option<Json>, parse: Json -> Option<T>): Option<T> {
    if o.Some? then parse(o.value) else None
  }

  // The parts FromJson goes through in turn

  datatype ComponentPart = ComponentPart(
    rect: Rect, size: Size, colors: Colors, borderWidth: real, style: Style, isArkuiComponent: bool,
    isSmartEdgeState: bool)

  function ParseComponentInfo(j: Json, who: Asker): Option<ComponentPart> {
    var size := In(ObjectAt(j, "size"), ParseSize);
    var radius := if size.Some? then size.value.borderRadius else NO_ROUNDING;
    var rect := In(ObjectAt(j, "rect"), (o: Json) => ParseRect(o, radius));
    var colors := In(ObjectAt(j, "colors"), ParseColors);
    var border := In(ObjectAt(j, "border"), (o: Json) => DimensionAt(o, "borderWidth"));
    var style := In(ObjectAt(j, "style"), (o: Json) => ParseStyle(o, who));
    var (arkui, smart) := (BoolAt(j, "isArkuiComponent"), BoolAt(j, "isSmartEdgeState"));
    if rect.Some? && size.Some? && colors.Some? && border.Some? && style.Some? && arkui.Some? && smart.Some? then
      Some(ComponentPart(rect.value, size.value, colors.value, border.value, style.value, arkui.value, smart.value))
    else None
  }

  datatype WindowPart = WindowPart(windowRect: Rect, windowId: Int32, displayId: DisplayId, crossAxis: CrossAxisState)

  function ParseWindowAndDisplay(j: Json): Option<WindowPart> {
    var rect := In(ObjectAt(j, "windowRect"), (o: Json) => ParseRect(o, NO_ROUNDING));
    var (window, display, cross) := (Int32At(j, "windowId"), DisplayIdAt(j, "displayId"), ParseCrossAxisState(j));
    if rect.Some? && window.Some? && display.Some? && cross.Some? then
      Some(WindowPart(rect.value, window.value, display.value, cross.value))
    else None
  }

  datatype HeadPart = HeadPart(ty: SecCompType, nodeId: Int32, isWearable: bool, parent: Parent)

  function ParseHead(j: Json): Option<HeadPart> {
    var (ty, node, wearable, parent) :=
        (ParseType(j), Int32At(j, "nodeId"), BoolAt(j, "isWearable"), In(ObjectAt(j, "parent"), ParseParent));
    if ty.Some? && node.Some? && wearable.Some? && parent.Some? then
      Some(HeadPart(ty.value, node.value, wearable.value, parent.value))
    else None
  }

  function FromJson(j: Json, who: Asker): Option<ButtonInfo> {
    var (h, c, w) := (ParseHead(j), ParseComponentInfo(j, who), ParseWindowAndDisplay(j));
    var (custom, tip, changes) := (BoolAt(j, "isCustomizable"), ParseTipPosition(j), ParseChanges(j));
    if h.Some? && c.Some? && w.Some? && custom.Some? && tip.Some? && changes.Some? then
      Some(ButtonInfo(h.value.ty, h.value.nodeId, h.value.isWearable, h.value.parent,
                      c.value.rect, c.value.size, c.value.colors, c.value.borderWidth, c.value.style,
                      c.value.isArkuiComponent, c.value.isSmartEdgeState,
                      w.value.windowRect, w.value.windowId, w.value.displayId, w.value.crossAxis,
                      custom.value, tip.value, changes.value))
    else None
  }

  function ToJson(b: ButtonInfo): Json {
    JObject(map[
      "type" := JInt(TypeNumber(b.ty)), "nodeId" := JInt(b.nodeId), "isWearable" := JBool(b.isWearable),
      "rect" := RectJson(b.rect), "windowRect" := RectJson(b.windowRect), "size" := SizeJson(b.size),
      "colors" := ColorsJson(b.colors), "border" := JObject(map["borderWidth" := JFloat(b.borderWidth)]),
      "parent" := ParentJson(b.parent), "style" := StyleJson(b.style),
      "windowId" := JInt(b.windowId), "displayId" := JInt(b.displayId),
      "crossAxisState" := JInt(CrossAxisNumber(b.crossAxis)),
      "isIconExceeded" := JBool(b.changes.isIconExceeded), "isBorderCovered" := JBool(b.changes.isBorderCovered),
      "hasNonCompatibleChange" := JBool(b.changes.hasNonCompatibleChange), "blurRadius" := JFloat(b.changes.blurRadius),
      "foregroundBlurRadius" := JFloat(b.changes.foregroundBlurRadius),
      "isOverlayTextSet" := JBool(b.changes.isOverlayTextSet),
      "isOverlayNodeCovered" := JBool(b.changes.isOverlayNodeCovered),
      "isCustomizable" := JBool(b.isCustomizable), "tipPosition" := JInt(b.tipPosition),
      "isArkuiComponent" := JBool(b.isArkuiComponent), "isSmartEdgeState" := JBool(b.isSmartEdgeState)])
  }

  // What is accepted, and what comes back

  /** The texts, icons and backgrounds a button may have; a clicked picture icon is for system applications. */
  predicate StyleInRange(s: Style, who: Asker) {
    && s.bg in {-1, 0, 1, 2, 8}
    && match who.kind
       case Location => -1 <= s.text <= 10 && -1 <= s.icon <= 1
       case Paste => -1 <= s.text <= 0 && -1 <= s.icon <= 1
       case Save => -1 <= s.text <= 12 && -1 <= s.icon <= 2 && (s.icon == 2 && who.isClicked ==> who.isSystemApp)
       case Unknown => false
  }

  predicate InRange(b: ButtonInfo, who: Asker) {
    b.ty != Unknown && StyleInRange(b.style, who) && (b.tipPosition == 0 || b.tipPosition == 1)
  }

  /** The corner radii are written once, with the size, and read back into the component's rectangle only. */
  function Restored(b: ButtonInfo): ButtonInfo {
    b.(rect := b.rect.(radius := b.size.borderRadius), windowRect := b.windowRect.(radius := NO_ROUNDING))
  }

  lemma SizeBack(s: Size)
    ensures ParseSize(SizeJson(s)) == Some(s)
  {
  }

  lemma RectBack(r: Rect, radius: BorderRadius)
    ensures ParseRect(RectJson(r), radius) == Some(r.(radius := radius))
  {
  }

  lemma ColorsBack(c: Colors)
    ensures ParseColors(ColorsJson(c)) == Some(c)
  {
  }

  lemma StyleBack(s: Style, who: Asker)
    ensures ParseStyle(StyleJson(s), who)
         == if StyleInRange(s, who) then Some(s) else None
  {
  }

  // The written object, tag by tag

  ghost predicate WritesHead(j: Json, b: ButtonInfo) {
    && Find(j, "type") == Some(JInt(TypeNumber(b.ty))) && Find(j, "nodeId") == Some(JInt(b.nodeId))
    && Find(j, "isWearable") == Some(JBool(b.isWearable)) && Find(j, "parent") == Some(ParentJson(b.parent))
  }

  ghost predicate WritesComponent(j: Json, b: ButtonInfo) {
    && Find(j, "rect") == Some(RectJson(b.rect)) && Find(j, "size") == Some(SizeJson(b.size))
    && Find(j, "colors") == Some(ColorsJson(b.colors)) &&
         Find(j, "border") == Some(JObject(map["borderWidth" := JFloat(b.borderWidth)]))
    && Find(j, "style") == Some(StyleJson(b.style))
    && Find(j, "isArkuiComponent") == Some(JBool(b.isArkuiComponent)) &&
         Find(j, "isSmartEdgeState") == Some(JBool(b.isSmartEdgeState))
  }

  ghost predicate WritesWindow(j: Json, b: ButtonInfo) {
    && Find(j, "windowRect") == Some(RectJson(b.windowRect)) && Find(j, "windowId") == Some(JInt(b.windowId))
    && Find(j, "displayId") == Some(JInt(b.displayId)) &&
         Find(j, "crossAxisState") == Some(JInt(CrossAxisNumber(b.crossAxis)))
    && Find(j, "isCustomizable") == Some(JBool(b.isCustomizable)) && Find(j, "tipPosition") == Some(JInt(b.tipPosition))
  }

  ghost predicate WritesChanges(j: Json, c: Changes) {
    && Find(j, "hasNonCompatibleChange") == Some(JBool(c.hasNonCompatibleChange))
    && Find(j, "isIconExceeded") == Some(JBool(c.isIconExceeded)) &&
         Find(j, "isBorderCovered") == Some(JBool(c.isBorderCovered))
    && Find(j, "blurRadius") == Some(JFloat(c.blurRadius)) &&
         Find(j, "foregroundBlurRadius") == Some(JFloat(c.foregroundBlurRadius))
    && Find(j, "isOverlayTextSet") == Some(JBool(c.isOverlayTextSet)) &&
         Find(j, "isOverlayNodeCovered") == Some(JBool(c.isOverlayNodeCovered))
  }

  lemma TypeWritten(b: ButtonInfo)
    ensures Find(ToJson(b), "type") == Some(JInt(TypeNumber(b.ty))) && Find(ToJson(b), "nodeId") == Some(JInt(b.nodeId))
  {
  }

  lemma ParentWritten(b: ButtonInfo)
    ensures Find(ToJson(b), "isWearable") == Some(JBool(b.isWearable)) &&
            Find(ToJson(b), "parent") == Some(ParentJson(b.parent))
  {
  }

  lemma BlurWritten(b: ButtonInfo)
    ensures Find(ToJson(b), "blurRadius") == Some(JFloat(b.changes.blurRadius))
         && Find(ToJson(b), "foregroundBlurRadius") == Some(JFloat(b.changes.foregroundBlurRadius))
         && Find(ToJson(b), "hasNonCompatibleChange") == Some(JBool(b.changes.hasNonCompatibleChange))
  {
  }

  lemma CoverWritten(b: ButtonInfo)
    ensures Find(ToJson(b), "isIconExceeded") == Some(JBool(b.changes.isIconExceeded))
         && Find(ToJson(b), "isBorderCovered") == Some(JBool(b.changes.isBorderCovered))
         && Find(ToJson(b), "isOverlayTextSet") == Some(JBool(b.changes.isOverlayTextSet))
         && Find(ToJson(b), "isOverlayNodeCovered") == Some(JBool(b.changes.isOverlayNodeCovered))
  {
  }

  lemma ShapeWritten(b: ButtonInfo)
    ensures Find(ToJson(b), "rect") == Some(RectJson(b.rect)) && Find(ToJson(b), "size") == Some(SizeJson(b.size))
  {
  }

  lemma LookWritten(b: ButtonInfo)
    ensures Find(ToJson(b), "colors") == Some(ColorsJson(b.colors)) &&
            Find(ToJson(b), "style") == Some(StyleJson(b.style))
         && Find(ToJson(b), "border") == Some(JObject(map["borderWidth" := JFloat(b.borderWidth)]))
  {
  }

  lemma OriginWritten(b: ButtonInfo)
    ensures Find(ToJson(b), "isArkuiComponent") == Some(JBool(b.isArkuiComponent))
         && Find(ToJson(b), "isSmartEdgeState") == Some(JBool(b.isSmartEdgeState))
  {
  }

  lemma WindowWritten(b: ButtonInfo)
    ensures Find(ToJson(b), "windowRect") == Some(RectJson(b.windowRect)) &&
            Find(ToJson(b), "windowId") == Some(JInt(b.windowId))
  {
  }

  lemma DisplayWritten(b: ButtonInfo)
    ensures Find(ToJson(b), "displayId") == Some(JInt(b.displayId))
         && Find(ToJson(b), "crossAxisState") == Some(JInt(CrossAxisNumber(b.crossAxis)))
  {
  }

  lemma CustomWritten(b: ButtonInfo)
    ensures Find(ToJson(b), "isCustomizable") == Some(JBool(b.isCustomizable)) &&
            Find(ToJson(b), "tipPosition") == Some(JInt(b.tipPosition))
  {
  }

  lemma HeadBack(j: Json, b: ButtonInfo)
    requires WritesHead(j, b)
    ensures ParseHead(j) == if b.ty != Unknown then Some(HeadPart(b.ty, b.nodeId, b.isWearable, b.parent)) else None
  {
  }

  lemma ComponentBack(j: Json, b: ButtonInfo, who: Asker)
    requires WritesComponent(j, b)
    ensures ParseComponentInfo(j, who)
         == if StyleInRange(b.style, who) then
              Some(ComponentPart(b.rect.(radius := b.size.borderRadius), b.size, b.colors, b.borderWidth, b.style,
                                 b.isArkuiComponent, b.isSmartEdgeState))
            else None
  {
    SizeBack(b.size);
    RectBack(b.rect, b.size.borderRadius);
    ColorsBack(b.colors);
    StyleBack(b.style, who);
    assert ObjectAt(j, "size") == Some(SizeJson(b.size)) && ObjectAt(j, "rect") == Some(RectJson(b.rect));
    assert ObjectAt(j, "colors") == Some(ColorsJson(b.colors)) && ObjectAt(j, "style") == Some(StyleJson(b.style));
    assert ObjectAt(j, "border") == Some(JObject(map["borderWidth" := JFloat(b.borderWidth)]));
  }

  lemma WindowBack(j: Json, b: ButtonInfo)
    requires WritesWindow(j, b)
    ensures ParseWindowAndDisplay(j)
         == Some(WindowPart(b.windowRect.(radius := NO_ROUNDING), b.windowId, b.displayId, b.crossAxis))
    ensures BoolAt(j, "isCustomizable") == Some(b.isCustomizable)
    ensures ParseTipPosition(j)
         == if b.tipPosition == 0 || b.tipPosition == 1 then Some(b.tipPosition) else None
  {
  }

  lemma ChangesBack(j: Json, c: Changes)
    requires WritesChanges(j, c)
    ensures ParseChanges(j) == Some(c)
  {
  }

  lemma WrittenBack(j: Json, b: ButtonInfo, who: Asker)
    requires WritesHead(j, b) && WritesComponent(j, b) && WritesWindow(j, b) && WritesChanges(j, b.changes)
    ensures FromJson(j, who) == if InRange(b, who) then Some(Restored(b)) else None
  {
    HeadBack(j, b);
    ComponentBack(j, b, who);
    WindowBack(j, b);
    ChangesBack(j, b.changes);
  }

  lemma WritesAll(b: ButtonInfo)
    ensures var j := ToJson(b); WritesHead(j, b) && WritesComponent(j, b) && WritesWindow(j, b)
    ensures WritesChanges(ToJson(b), b.changes)
  {
    TypeWritten(b);
    ParentWritten(b);
    ShapeWritten(b);
    LookWritten(b);
    OriginWritten(b);
    WindowWritten(b);
    DisplayWritten(b);
    CustomWritten(b);
    BlurWritten(b);
    CoverWritten(b);
  }

  /**
   Writing a button and reading it back restores every serialised field exactly when it is in
   range for the asker; otherwise it is refused.
   */
  lemma ComponentRoundTrip(b: ButtonInfo, who: Asker)
    ensures FromJson(ToJson(b), who) == if InRange(b, who) then Some(Restored(b)) else None
  {
    WritesAll(b);
    WrittenBack(ToJson(b), b, who);
  }

  function Inside(j: Json, outer: string, tag: string): Option<Json> {
    var o := Find(j, outer);
    if o.Some? then Find(o.value, tag) else None
  }

  ghost predicate HoldsRect(j: Json, outer: string, r: Rect) {
    && Inside(j, outer, "x") == Some(JFloat(r.x)) && Inside(j, outer, "y") == Some(JFloat(r.y))
    && Inside(j, outer, "width") == Some(JFloat(r.width)) && Inside(j, outer, "height") == Some(JFloat(r.height))
  }

  ghost predicate HoldsSize(j: Json, s: Size) {
    && Inside(j, "size", "fontSize") == Some(JFloat(s.fontSize))
    && Inside(j, "size", "iconSize") == Some(JFloat(s.iconSize))
    && Inside(j, "size", "textIconSpace") == Some(JFloat(s.textIconSpace))
    && var (padding, radius) := (Inside(j, "size", "paddingSize"), Inside(j, "size", "borderRadius"));
    && padding.Some? && Find(padding.value, "top") == Some(JFloat(s.padding.top))
    && Find(padding.value, "right") == Some(JFloat(s.padding.right))
    && Find(padding.value, "bottom") == Some(JFloat(s.padding.bottom))
    && Find(padding.value, "left") == Some(JFloat(s.padding.left))
    && radius.Some? && Find(radius.value, "leftTop") == Some(JFloat(s.borderRadius.leftTop))
    && Find(radius.value, "rightTop") == Some(JFloat(s.borderRadius.rightTop))
    && Find(radius.value, "leftBottom") == Some(JFloat(s.borderRadius.leftBottom))
    && Find(radius.value, "rightBottom") == Some(JFloat(s.borderRadius.rightBottom))
  }

  ghost predicate HoldsLook(j: Json, b: ButtonInfo) {
    && Inside(j, "colors", "fontColor") == Some(JInt(b.colors.fontColor))
    && Inside(j, "colors", "iconColor") == Some(JInt(b.colors.iconColor))
    && Inside(j, "colors", "bgColor") == Some(JInt(b.colors.bgColor))
    && Inside(j, "border", "borderWidth") == Some(JFloat(b.borderWidth))
    && Inside(j, "style", "text") == Some(JInt(b.style.text))
    && Inside(j, "style", "icon") == Some(JInt(b.style.icon))
    && Inside(j, "style", "bg") == Some(JInt(b.style.bg))
  }

  ghost predicate HoldsParent(j: Json, p: Parent) {
    && Inside(j, "parent", "parentEffect") == Some(JBool(p.parentEffect))
    && Inside(j, "parent", "isClipped") == Some(JBool(p.isClipped))
    && Inside(j, "parent", "topClip") == Some(JFloat(p.topClip))
    && Inside(j, "parent", "bottomClip") == Some(JFloat(p.bottomClip))
    && Inside(j, "parent", "leftClip") == Some(JFloat(p.leftClip))
    && Inside(j, "parent", "rightClip") == Some(JFloat(p.rightClip))
    && Inside(j, "parent", "parentTag") == Some(JString(p.parentTag))
  }

  /** Types and crossing states as the header numbers them. */
  ghost predicate HoldsNumbers(j: Json, b: ButtonInfo) {
    && Find(j, "type") == Some(JInt(match b.ty case Unknown => 0 case Location => 1 case Paste => 2 case Save => 3))
    && Find(j, "crossAxisState") ==
       Some(JInt(match b.crossAxis case StateInvalid => 0 case StateCross => 1 case StateNoCross => 2))
    && Find(j, "nodeId") == Some(JInt(b.nodeId)) && Find(j, "windowId") == Some(JInt(b.windowId))
    && Find(j, "displayId") == Some(JInt(b.displayId)) && Find(j, "tipPosition") == Some(JInt(b.tipPosition))
  }

  ghost predicate HoldsFlags(j: Json, b: ButtonInfo) {
    && Find(j, "isWearable") == Some(JBool(b.isWearable)) && Find(j, "isCustomizable") == Some(JBool(b.isCustomizable))
    && Find(j, "isArkuiComponent") == Some(JBool(b.isArkuiComponent))
    && Find(j, "isSmartEdgeState") == Some(JBool(b.isSmartEdgeState)) && WritesChanges(j, b.changes)
  }

  lemma NumbersHeld(j: Json, b: ButtonInfo)
    requires WritesHead(j, b) && WritesWindow(j, b)
    ensures HoldsNumbers(j, b)
  {
  }

  lemma RectHeld(j: Json, outer: string, r: Rect)
    requires Find(j, outer) == Some(RectJson(r))
    ensures HoldsRect(j, outer, r)
  {
  }

  lemma LookHeld(j: Json, b: ButtonInfo)
    requires WritesComponent(j, b)
    ensures HoldsLook(j, b)
  {
  }

  lemma ParentHeld(j: Json, p: Parent)
    requires Find(j, "parent") == Some(ParentJson(p))
    ensures HoldsParent(j, p)
  {
  }

  lemma TagsHeld(j: Json, b: ButtonInfo)
    requires WritesHead(j, b) && WritesComponent(j, b) && WritesWindow(j, b) && WritesChanges(j, b.changes)
    ensures HoldsNumbers(j, b) && HoldsFlags(j, b) && HoldsRect(j, "rect", b.rect)
    ensures HoldsRect(j, "windowRect", b.windowRect) && HoldsSize(j, b.size) && HoldsLook(j, b)
    ensures HoldsParent(j, b.parent)
  {
    NumbersHeld(j, b);
    RectHeld(j, "rect", b.rect);
    RectHeld(j, "windowRect", b.windowRect);
    SizeHeld(j, b.size);
    LookHeld(j, b);
    ParentHeld(j, b.parent);
  }

  /** Each field stands under its own tag; together with the round trip this fixes what reading takes from where. */
  lemma WrittenTags(b: ButtonInfo)
    ensures var j := ToJson(b);
            && HoldsNumbers(j, b) && HoldsFlags(j, b) && HoldsRect(j, "rect", b.rect)
            && HoldsRect(j, "windowRect", b.windowRect) && HoldsSize(j, b.size) && HoldsLook(j, b)
            && HoldsParent(j, b.parent)
  {
    WritesAll(b);
    TagsHeld(ToJson(b), b);
  }

  lemma SizeHeld(j: Json, s: Size)
    requires Find(j, "size") == Some(SizeJson(s))
    ensures HoldsSize(j, s)
  {
    assert Inside(j, "size", "paddingSize") == Some(PaddingJson(s.padding));
    assert Inside(j, "size", "borderRadius") == Some(BorderRadiusJson(s.borderRadius));
  }

  // What reading takes from where

  /** Only a floating-point number is taken for a length, and only a truth value for a flag. */
  lemma RectRead(j: Json, outer: string, radius: BorderRadius)
    requires ObjectAt(j, outer).Some? && ParseRect(ObjectAt(j, outer).value, radius).Some?
    ensures HoldsRect(j, outer, ParseRect(ObjectAt(j, outer).value, radius).value)
  {
  }

  lemma SizeRead(j: Json)
    requires ObjectAt(j, "size").Some? && ParseSize(ObjectAt(j, "size").value).Some?
    ensures HoldsSize(j, ParseSize(ObjectAt(j, "size").value).value)
  {
  }

  lemma ParentRead(j: Json)
    requires ObjectAt(j, "parent").Some? && ParseParent(ObjectAt(j, "parent").value).Some?
    ensures HoldsParent(j, ParseParent(ObjectAt(j, "parent").value).value)
  {
  }

  lemma FlagsRead(j: Json)
    requires ParseChanges(j).Some?
    ensures WritesChanges(j, ParseChanges(j).value)
  {
  }

  /** An integer of the text, or a floating-point number rounded towards zero, wrapped to 32 bits. */
  ghost predicate ReadsInt(v: Option<Json>, n: Int32) {
    v.Some? && IsNumber(v.value) && n == Signed32(NumberOf(v.value))
  }

  ghost predicate ReadsStyle(j: Json, s: Style) {
    && ReadsInt(Inside(j, "style", "text"), s.text) && ReadsInt(Inside(j, "style", "icon"), s.icon)
    && ReadsInt(Inside(j, "style", "bg"), s.bg)
  }

  lemma StyleRead(j: Json, who: Asker)
    requires ObjectAt(j, "style").Some? && ParseStyle(ObjectAt(j, "style").value, who).Some?
    ensures ReadsStyle(j, ParseStyle(ObjectAt(j, "style").value, who).value)
  {
  }

  lemma HeadRead(j: Json)
    requires ParseHead(j).Some?
    ensures var h := ParseHead(j).value;
            && HoldsParent(j, h.parent) && ReadsInt(Find(j, "nodeId"), h.nodeId)
            && Find(j, "isWearable") == Some(JBool(h.isWearable))
  {
    ParentRead(j);
  }

  lemma ComponentRead(j: Json, who: Asker)
    requires ParseComponentInfo(j, who).Some?
    ensures var c := ParseComponentInfo(j, who).value;
            && HoldsRect(j, "rect", c.rect) && HoldsSize(j, c.size) && ReadsStyle(j, c.style)
            && Inside(j, "border", "borderWidth") == Some(JFloat(c.borderWidth))
            && Find(j, "isArkuiComponent") == Some(JBool(c.isArkuiComponent))
            && Find(j, "isSmartEdgeState") == Some(JBool(c.isSmartEdgeState))
  {
    RectRead(j, "rect", ParseSize(ObjectAt(j, "size").value).value.borderRadius);
    SizeRead(j);
    StyleRead(j, who);
  }

  lemma WindowRead(j: Json)
    requires ParseWindowAndDisplay(j).Some?
    ensures var w := ParseWindowAndDisplay(j).value;
            HoldsRect(j, "windowRect", w.windowRect) && ReadsInt(Find(j, "windowId"), w.windowId)
  {
    RectRead(j, "windowRect", NO_ROUNDING);
  }

  /** Every field that is read stands under its own tag, with its own kind of value. */
  lemma ReadTags(j: Json, who: Asker)
    requires FromJson(j, who).Some?
    ensures var b := FromJson(j, who).value;
            && HoldsRect(j, "rect", b.rect) && HoldsRect(j, "windowRect", b.windowRect) && HoldsSize(j, b.size)
            && HoldsParent(j, b.parent) && HoldsFlags(j, b) && ReadsStyle(j, b.style)
            && Inside(j, "border", "borderWidth") == Some(JFloat(b.borderWidth))
            && ReadsInt(Find(j, "nodeId"), b.nodeId) && ReadsInt(Find(j, "windowId"), b.windowId)
            && ReadsInt(Find(j, "tipPosition"), b.tipPosition)
  {
    HeadRead(j);
    ComponentRead(j, who);
    WindowRead(j);
    FlagsRead(j);
  }

  /** Whatever is accepted is in range and has nothing that a second trip would change. */
  lemma AcceptedIsInRange(j: Json, who: Asker)
    ensures FromJson(j, who).Some? ==>
            InRange(FromJson(j, who).value, who) && Restored(FromJson(j, who).value) == FromJson(j, who).value
  {
  }

  /** Reading, writing and reading again is the same as reading. */
  lemma ReadingIsStable(j: Json, who: Asker)
    requires FromJson(j, who).Some?
    ensures FromJson(ToJson(FromJson(j, who).value), who) == FromJson(j, who)
  {
    AcceptedIsInRange(j, who);
    ComponentRoundTrip(FromJson(j, who).value, who);
  }

  /** The parts of a button, put together. */
  lemma Assembled(j: Json, who: Asker, b: ButtonInfo)
    requires ParseHead(j).Some? && ParseComponentInfo(j, who).Some? && ParseWindowAndDisplay(j).Some?
    requires var (h, c, w) := (ParseHead(j).value, ParseComponentInfo(j, who).value, ParseWindowAndDisplay(j).value);
             var (custom, tip, changes) := (BoolAt(j, "isCustomizable"), ParseTipPosition(j), ParseChanges(j));
             && custom.Some? && tip.Some? && changes.Some?
             && b == NEW_BUTTON.(ty := h.ty, nodeId := h.nodeId, isWearable := h.isWearable, parent := h.parent)
                       .(rect := c.rect, size := c.size, colors := c.colors, borderWidth := c.borderWidth,
                         style := c.style, isArkuiComponent := c.isArkuiComponent,
                         isSmartEdgeState := c.isSmartEdgeState)
                       .(windowRect := w.windowRect, windowId := w.windowId, displayId := w.displayId,
                         crossAxis := w.crossAxis)
                       .(isCustomizable := custom.value, tipPosition := tip.value, changes := changes.value)
    ensures FromJson(j, who) == Some(b)
  {
  }

  /** A button object: parsing assigns its fields group by group and gives up at the first bad tag. */
  class SecCompBase {
    const kind: SecCompType
    var info: ButtonInfo

    constructor (k: SecCompType)
      ensures kind == k && info == NEW_BUTTON
    {
      kind, info := k, NEW_BUTTON;
    }

    method ParseHeadFields(j: Json) returns (ok: bool)
      modifies this`info
      ensures ok == ParseHead(j).Some?
      ensures ok ==> var h := ParseHead(j).value;
                     info == old(info).(ty := h.ty, nodeId := h.nodeId, isWearable := h.isWearable, parent := h.parent)
    {
      var ty := ParseType(j);
      if ty.None? {
        return false;
      }
      info := info.(ty := ty.value);
      var node := Int32At(j, "nodeId");
      if node.None? {
        return false;
      }
      info := info.(nodeId := node.value);
      var wearable := BoolAt(j, "isWearable");
      if wearable.None? {
        return false;
      }
      info := info.(isWearable := wearable.value);
      var parent := In(ObjectAt(j, "parent"), ParseParent);
      if parent.None? {
        return false;
      }
      info := info.(parent := parent.value);
      ok := true;
    }

    /** The rectangle is read before its corner radii, which come with the size. */
    method ParseShapeFields(j: Json) returns (ok: bool)
      modifies this`info
      ensures var size := In(ObjectAt(j, "size"), ParseSize);
              var rect := In(ObjectAt(j, "rect"), (o: Json) => ParseRect(o, old(info.rect.radius)));
              && ok == (size.Some? && rect.Some?)
              && (ok ==> info == old(info).(rect := rect.value.(radius := size.value.borderRadius), size := size.value))
    {
      var radius := info.rect.radius;
      var rect := In(ObjectAt(j, "rect"), (o: Json) => ParseRect(o, radius));
      if rect.None? {
        return false;
      }
      info := info.(rect := rect.value);
      var size := In(ObjectAt(j, "size"), ParseSize);
      if size.None? {
        return false;
      }
      info := info.(size := size.value);
      info := info.(rect := info.rect.(radius := size.value.borderRadius));
      ok := true;
    }

    method ParseLookFields(j: Json, who: Asker) returns (ok: bool)
      modifies this`info
      ensures var colors := In(ObjectAt(j, "colors"), ParseColors);
              var border := In(ObjectAt(j, "border"), (o: Json) => DimensionAt(o, "borderWidth"));
              var style := In(ObjectAt(j, "style"), (o: Json) => ParseStyle(o, who));
              && ok == (colors.Some? && border.Some? && style.Some?)
              && (ok ==> info == old(info).(colors := colors.value, borderWidth := border.value, style := style.value))
    {
      var colors := In(ObjectAt(j, "colors"), ParseColors);
      if colors.None? {
        return false;
      }
      info := info.(colors := colors.value);
      var border := In(ObjectAt(j, "border"), (o: Json) => DimensionAt(o, "borderWidth"));
      if border.None? {
        return false;
      }
      info := info.(borderWidth := border.value);
      var style := In(ObjectAt(j, "style"), (o: Json) => ParseStyle(o, who));
      if style.None? {
        return false;
      }
      info := info.(style := style.value);
      ok := true;
    }

    method ParseWindowFields(j: Json) returns (ok: bool)
      requires info.windowRect.radius == NO_ROUNDING
      modifies this`info
      ensures ok == ParseWindowAndDisplay(j).Some?
      ensures ok ==> var w := ParseWindowAndDisplay(j).value;
                     info == old(info).(windowRect := w.windowRect, windowId := w.windowId, displayId := w.displayId,
                       crossAxis := w.crossAxis)
    {
      var rect := In(ObjectAt(j, "windowRect"), (o: Json) => ParseRect(o, NO_ROUNDING));
      if rect.None? {
        return false;
      }
      info := info.(windowRect := rect.value);
      var window := Int32At(j, "windowId");
      if window.None? {
        return false;
      }
      info := info.(windowId := window.value);
      var display := DisplayIdAt(j, "displayId");
      if display.None? {
        return false;
      }
      info := info.(displayId := display.value);
      var cross := ParseCrossAxisState(j);
      if cross.None? {
        return false;
      }
      info := info.(crossAxis := cross.value);
      ok := true;
    }

    method ParseFlagFields(j: Json) returns (ok: bool)
      modifies this`info
      ensures var (arkui, smart) := (BoolAt(j, "isArkuiComponent"), BoolAt(j, "isSmartEdgeState"));
              && ok == (arkui.Some? && smart.Some?)
              && (ok ==> info == old(info).(isArkuiComponent := arkui.value, isSmartEdgeState := smart.value))
    {
      var arkui := BoolAt(j, "isArkuiComponent");
      if arkui.None? {
        return false;
      }
      info := info.(isArkuiComponent := arkui.value);
      var smart := BoolAt(j, "isSmartEdgeState");
      if smart.None? {
        return false;
      }
      info := info.(isSmartEdgeState := smart.value);
      ok := true;
    }

    method ParseCustomFields(j: Json) returns (ok: bool)
      modifies this`info
      ensures var (custom, tip, changes) := (BoolAt(j, "isCustomizable"), ParseTipPosition(j), ParseChanges(j));
              && ok == (custom.Some? && tip.Some? && changes.Some?)
              && (ok ==> info == old(info).(isCustomizable := custom.value, tipPosition := tip.value,
                                              changes := changes.value))
    {
      var custom := BoolAt(j, "isCustomizable");
      if custom.None? {
        return false;
      }
      info := info.(isCustomizable := custom.value);
      var tip := ParseTipPosition(j);
      if tip.None? {
        return false;
      }
      info := info.(tipPosition := tip.value);
      var changes := ParseChanges(j);
      if changes.None? {
        return false;
      }
      info := info.(changes := changes.value);
      ok := true;
    }

    method ParseComponentFields(j: Json, who: Asker) returns (ok: bool)
      modifies this`info
      ensures ok == ParseComponentInfo(j, who).Some?
      ensures ok ==> var c := ParseComponentInfo(j, who).value;
                     info == old(info).(rect := c.rect, size := c.size, colors := c.colors,
                                        borderWidth := c.borderWidth, style := c.style,
                                        isArkuiComponent := c.isArkuiComponent,
                                        isSmartEdgeState := c.isSmartEdgeState)
    {
      ok := ParseShapeFields(j);
      if !ok {
        return;
      }
      ok := ParseLookFields(j, who);
      if !ok {
        return;
      }
      ok := ParseFlagFields(j);
    }

    /** A fresh button takes exactly the value the description stands for, or the description is refused. */
    method ParseFromJson(j: Json, isClicked: bool, isSystemApp: bool) returns (ok: bool)
      requires info == NEW_BUTTON
      modifies this`info
      ensures ok == FromJson(j, Asker(kind, isClicked, isSystemApp)).Some?
      ensures ok ==> info == FromJson(j, Asker(kind, isClicked, isSystemApp)).value
    {
      ghost var who := Asker(kind, isClicked, isSystemApp);
      ok := ParseHeadFields(j);
      if !ok {
        return;
      }
      ok := ParseComponentFields(j, Asker(kind, isClicked, isSystemApp));
      if !ok {
        return;
      }
      ok := ParseWindowFields(j);
      if !ok {
        return;
      }
      ok := ParseCustomFields(j);
      if ok {
        Assembled(j, who, info);
      }
    }

    /** Fills the object tag by tag. */
    method WriteToJson() returns (j: Json)
      ensures j == ToJson(info)
    {
      var fields := map["type" := JInt(TypeNumber(info.ty))];
      fields := fields["nodeId" := JInt(info.nodeId)]["isWearable" := JBool(info.isWearable)];
      fields := fields["rect" := RectJson(info.rect)]["windowRect" := RectJson(info.windowRect)];
      fields := fields["size" := SizeJson(info.size)];
      fields := fields["colors" := ColorsJson(info.colors)];
      fields := fields["border" := JObject(map["borderWidth" := JFloat(info.borderWidth)])];
      fields := fields["parent" := ParentJson(info.parent)]["style" := StyleJson(info.style)];
      fields := fields["windowId" := JInt(info.windowId)]["displayId" := JInt(info.displayId)];
      fields := fields["crossAxisState" := JInt(CrossAxisNumber(info.crossAxis))];
      fields := fields["isIconExceeded" := JBool(info.changes.isIconExceeded)];
      fields := fields["isBorderCovered" := JBool(info.changes.isBorderCovered)];
      fields := fields["hasNonCompatibleChange" := JBool(info.changes.hasNonCompatibleChange)];
      fields := fields["blurRadius" := JFloat(info.changes.blurRadius)];
      fields := fields["foregroundBlurRadius" := JFloat(info.changes.foregroundBlurRadius)];
      fields := fields["isOverlayTextSet" := JBool(info.changes.isOverlayTextSet)];
      fields := fields["isOverlayNodeCovered" := JBool(info.changes.isOverlayNodeCovered)];
      fields := fields["isCustomizable" := JBool(info.isCustomizable)]["tipPosition" := JInt(info.tipPosition)];
      fields := fields["isArkuiComponent" := JBool(info.isArkuiComponent)];
      fields := fields["isSmartEdgeState" := JBool(info.isSmartEdgeState)];
      j := JObject(fields);
    }
  }
}
