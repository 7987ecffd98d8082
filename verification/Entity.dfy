/**
 A registered component and the checks a click goes through before permission is
 given: the report that comes with the click, its rectangle, the enhanced checks,
 the windows above it, and the input event.
 */
module Entity {
  import opened Types
  import opened Geometry
  import opened PermManager

  const FOLD_VIRTUAL_DISPLAY_ID := 999
  const MAX_TOUCH_INTERVAL := 5000000
  const KEY_SPACE := 2050
  const KEY_ENTER := 2054
  const KEY_NUMPAD_ENTER := 2119

  /** What the service keeps of a component's reported information. */
  datatype Component = Component(
    ty: SecCompType, valid: bool, rect: Rect, windowRect: Rect, windowId: int, displayId: nat,
    crossAxis: CrossAxisState, isCompatScale: bool, isCustomizable: bool)

  datatype EntityView = EntityView(
    scId: int, pid: int, token: TokenId, comp: Component,
    isCustomAuthorized: bool, bypassSecurityCheck: bool, isGrant: bool)

  datatype ClickEvent =
    | PointEvent(touchX: real, touchY: real, pointTime: nat)
    | KeyEvent(keyTime: nat, keyCode: int)
    | AccessibilityEvent
    | UnknownEvent

  /** Whether a non-empty error message may be passed over: only save components of authorised applications. */
  predicate MayBypass(e: EntityView, messageEmpty: bool) {
    !messageEmpty && e.isCustomAuthorized && e.comp.ty == Save
  }

  function WithBypass(e: EntityView, messageEmpty: bool): EntityView {
    if MayBypass(e, messageEmpty) then e.(bypassSecurityCheck := true) else e
  }

  predicate InPCVirtualScreen(c: Component, cross: CrossAxisState) {
    c.displayId == FOLD_VIRTUAL_DISPLAY_ID && cross == StateNoCross
  }

  /** Timestamps are unsigned 64-bit microseconds, so the lower bound wraps during the first five seconds. */
  predicate TimeValid(time: nat, now: Uint64) {
    (now - MAX_TOUCH_INTERVAL) % UINT64_RANGE <= time <= now
  }

  predicate KeyValid(code: int) {
    code == KEY_SPACE || code == KEY_ENTER || code == KEY_NUMPAD_ENTER
  }

  function Shifted(r: Rect, offsetY: real): Rect {
    r.(y := r.y + offsetY)
  }

  // The click as the service sees it: what was parsed and what the outside world answers

  datatype RectAnswer = RectValid | RectWithoutMessage | RectWithMessage

  datatype ClickInput = ClickInput(
    remotes: nat,
    readPasteboardGranted: bool,
    messageEmpty: bool,
    bundleBypassed: bool,
    report: Option<Component>,
    parseMessageEmpty: bool,
    foldOffset: int,
    rectAnswer: RectAnswer,
    enhanceRes: int,
    covered: bool,
    coverMessageEmpty: bool,
    event: ClickEvent,
    extraRes: int,
    now: Uint64)

  /** What one click decided: the entity afterwards, the result, and what happens to the failure count. */
  datatype FailCount = CountUnchanged | CountReset | CountResetThenAdded | CountAdded

  datatype ClickVerdict = ClickVerdict(entity: EntityView, offset: int, res: int, count: FailCount, accepted: bool)

  function EventRes(c: Component, event: ClickEvent, offset: int, cross: CrossAxisState, now: Uint64): int {
    var ok := match event
      case PointEvent(x, y, time) =>
        TimeValid(time, now)
        && (IsInRect(c.rect, x, y) || (cross == StateCross && IsInRect(c.rect, x, y + offset as real)))
      case KeyEvent(time, code) => TimeValid(time, now) && KeyValid(code)
      case AccessibilityEvent => true
      case UnknownEvent => false;
    if ok then SC_OK else SC_SERVICE_ERROR_CLICK_EVENT_INVALID
  }

  /** The part of the click handled by the entity itself. */
  function CheckClick(e: EntityView, input: ClickInput, offset: int): (r: (EntityView, int)) {
    var cross := e.comp.crossAxis;
    var shift := InPCVirtualScreen(e.comp, cross) && input.event.PointEvent?;
    var event := if shift then input.event.(touchY := input.event.touchY + offset as real) else input.event;
    var e1 := if shift && !e.comp.isCompatScale
              then e.(comp := e.comp.(rect := Shifted(e.comp.rect, offset as real))) else e;
    if e1.comp.ty != Save && input.covered && !MayBypass(e1, input.coverMessageEmpty) then
      (e1, SC_SERVICE_ERROR_CLICK_EVENT_INVALID)
    else if EventRes(e1.comp, event, offset, cross, input.now) != SC_OK then
      (e1, SC_SERVICE_ERROR_CLICK_EVENT_INVALID)
    else if input.extraRes == SC_SERVICE_ERROR_CLICK_EVENT_INVALID then
      (e1, SC_SERVICE_ERROR_CLICK_EVENT_INVALID)
    else if input.extraRes != SC_OK && input.extraRes != SC_ENHANCE_ERROR_NOT_EXIST_ENHANCE then
      (e1, SC_ENHANCE_ERROR_CLICK_EXTRA_CHECK_FAIL)
    else (e1, SC_OK)
  }

  function FoldOffset(offset: int, cross: CrossAxisState, reading: int): int {
    if cross == StateInvalid || offset != 0 then offset else reading
  }

  /** The whole click after the component was found, up to the decision to start the dialog. */
  function JudgeClick(e: EntityView, input: ClickInput, offset: int): ClickVerdict {
    if e.comp.ty == Paste && input.readPasteboardGranted then
      ClickVerdict(e, offset, SC_OK, CountUnchanged, false)
    else if !input.messageEmpty && !MayBypass(e, false) && !input.bundleBypassed then
      ClickVerdict(e, offset, SC_SERVICE_ERROR_CLICK_EVENT_INVALID, CountUnchanged, false)
    else
      var e1 := if input.messageEmpty then e else WithBypass(e, false);
      JudgeReport(e1, input, offset)
  }

  function JudgeReport(e: EntityView, input: ClickInput, offset: int): ClickVerdict {
    if input.report.None? then
      ClickVerdict(e, offset, SC_SERVICE_ERROR_COMPONENT_INFO_INVALID, CountUnchanged, false)
    else
      var report := input.report.value;
      if !report.valid && !MayBypass(e, input.parseMessageEmpty) then
        ClickVerdict(e, offset, SC_SERVICE_ERROR_COMPONENT_INFO_INVALID, CountUnchanged, false)
      else
        var e1 := if report.valid then e else WithBypass(e, input.parseMessageEmpty);
        var offset1 := FoldOffset(offset, report.crossAxis, input.foldOffset);
        var rectMessageEmpty := if input.rectAnswer == RectWithoutMessage then input.parseMessageEmpty else false;
        if input.rectAnswer != RectValid && !MayBypass(e1, rectMessageEmpty) then
          ClickVerdict(e1, offset1, SC_SERVICE_ERROR_COMPONENT_INFO_INVALID, CountUnchanged, false)
        else
          var e2 := if input.rectAnswer == RectValid then e1 else WithBypass(e1, rectMessageEmpty);
          if input.enhanceRes != SC_OK then
            ClickVerdict(e2, offset1, input.enhanceRes, CountAdded, false)
          else
            JudgeEvent(e2.(comp := report), input, offset1)
  }

  /** The report is stored; what is left is the entity's own check. */
  function JudgeEvent(e: EntityView, input: ClickInput, offset: int): ClickVerdict {
    var (e1, res) := CheckClick(e, input, offset);
    if res == SC_OK then ClickVerdict(e1, offset, SC_OK, CountReset, true)
    else ClickVerdict(e1, offset, SC_SERVICE_ERROR_CLICK_EVENT_INVALID,
                      if res == SC_ENHANCE_ERROR_CLICK_EXTRA_CHECK_FAIL then CountResetThenAdded else CountReset, false)
  }

  // What a click comes to, in terms of what was reported and answered

  /** At most five seconds old. Nothing is recent during the first five seconds, when the lower bound wraps. */
  predicate Recent(time: nat, now: Uint64) {
    5_000_000 <= now && now - 5_000_000 <= time <= now
  }

  /** Inside the rectangle, or less than 1.001 outside. */
  predicate Near(r: Rect, x: real, y: real) {
    r.x - 1.001 < x < r.x + r.width + 1.001 && r.y - 1.001 < y < r.y + r.height + 1.001
  }

  /** On the virtual lower display of a folded screen, display 999, with nothing crossing the fold. */
  predicate OnLowerDisplay(c: Component) {
    c.displayId == 999 && c.crossAxis == StateNoCross
  }

  /** The touch as the user made it, against the rectangle as it was reported. */
  predicate TouchesReport(report: Component, x: real, y: real, offset: int) {
    if OnLowerDisplay(report) then
      Near(report.rect, x, if report.isCompatScale then y + offset as real else y)
    else
      Near(report.rect, x, y) || (report.crossAxis == StateCross && Near(report.rect, x, y + offset as real))
  }

  /** A recent touch of the component, a recent press of space, enter or keypad enter, or the screen reader. */
  predicate EventGenuine(report: Component, input: ClickInput, offset: int) {
    match input.event
    case PointEvent(x, y, time) => Recent(time, input.now) && TouchesReport(report, x, y, offset)
    case KeyEvent(time, code) => Recent(time, input.now) && (code == 2050 || code == 2054 || code == 2119)
    case AccessibilityEvent => true
    case UnknownEvent => false
  }

  /** A save component of an authorised application, the only one whose failed checks can be passed over. */
  predicate Excused(e: EntityView) {
    e.isCustomAuthorized && e.comp.ty == Save
  }

  /** The application of a paste component may read the pasteboard anyway. */
  predicate AlreadyGranted(e: EntityView, input: ClickInput) {
    e.comp.ty == Paste && input.readPasteboardGranted
  }

  predicate MessageFine(e: EntityView, input: ClickInput) {
    input.messageEmpty || Excused(e) || input.bundleBypassed
  }

  /** The report can be parsed and is valid, or is excused, which takes an error message. */
  predicate ReportFine(e: EntityView, input: ClickInput) {
    input.report.Some? && (input.report.value.valid || (Excused(e) && !input.parseMessageEmpty))
  }

  predicate RectFine(e: EntityView, input: ClickInput) {
    || input.rectAnswer == RectValid
    || (Excused(e) && (input.rectAnswer == RectWithMessage || !input.parseMessageEmpty))
  }

  /** The click gets as far as the enhanced check of its report. */
  predicate Reported(e: EntityView, input: ClickInput) {
    !AlreadyGranted(e, input) && MessageFine(e, input) && ReportFine(e, input) && RectFine(e, input)
  }

  /** The fold offset is read once, for a report with a crossing state. */
  function OffsetFor(report: Component, input: ClickInput, offset: int): int {
    if report.crossAxis != StateInvalid && offset == 0 then input.foldOffset else offset
  }

  /** No other window covers the component, unless it is a save component, and the event is genuine. */
  predicate EventFine(report: Component, input: ClickInput, offset: int) {
    (report.ty == Save || !input.covered) && EventGenuine(report, input, OffsetFor(report, input, offset))
  }

  /** The extra data of the event is refused by a check that exists: the event is forged. */
  predicate Forged(input: ClickInput) {
    && input.extraRes != SC_OK && input.extraRes != SC_SERVICE_ERROR_CLICK_EVENT_INVALID
    && input.extraRes != SC_ENHANCE_ERROR_NOT_EXIST_ENHANCE
  }

  /** Exactly when a click gets as far as the dialog. */
  predicate Acceptable(e: EntityView, input: ClickInput, offset: int) {
    && Reported(e, input) && input.enhanceRes == SC_OK
    && EventFine(input.report.value, input, offset)
    && (input.extraRes == SC_OK || input.extraRes == SC_ENHANCE_ERROR_NOT_EXIST_ENHANCE)
  }

  lemma ClickCheckMeaning(e: EntityView, input: ClickInput, offset: int)
    ensures CheckClick(e, input, offset).1 == SC_OK <==>
            && (e.comp.ty == Save || !input.covered)
            && EventGenuine(e.comp, input, offset)
            && (input.extraRes == SC_OK || input.extraRes == SC_ENHANCE_ERROR_NOT_EXIST_ENHANCE)
  {
  }

  /** The entity's own check fails for a forged event, and otherwise as if the event itself were invalid. */
  lemma ClickCheckFails(e: EntityView, input: ClickInput, offset: int)
    requires CheckClick(e, input, offset).1 != SC_OK
    ensures CheckClick(e, input, offset).1 ==
            if (e.comp.ty == Save || !input.covered) && EventGenuine(e.comp, input, offset) && Forged(input)
            then SC_ENHANCE_ERROR_CLICK_EXTRA_CHECK_FAIL else SC_SERVICE_ERROR_CLICK_EVENT_INVALID
  {
  }

  /** The report of a click that gets as far as the entity's own check, moved by the fold offset at most once. */
  function StoredReport(report: Component, input: ClickInput, offset: int): Component {
    if OnLowerDisplay(report) && input.event.PointEvent? && !report.isCompatScale
    then report.(rect := report.rect.(y := report.rect.y + offset as real)) else report
  }

  lemma ClickCheckStores(e: EntityView, input: ClickInput, offset: int)
    ensures CheckClick(e, input, offset).0 == e.(comp := StoredReport(e.comp, input, offset))
  {
  }

  /** What the judgement of a report comes to, once the error message has been passed over. */
  predicate Judged(e: EntityView, input: ClickInput, offset: int, v: ClickVerdict) {
    var stored := ReportFine(e, input) && RectFine(e, input) && input.enhanceRes == SC_OK;
    && v.accepted == (stored && EventFine(input.report.value, input, offset)
                      && (input.extraRes == SC_OK || input.extraRes == SC_ENHANCE_ERROR_NOT_EXIST_ENHANCE))
    && v.res == (if !ReportFine(e, input) || !RectFine(e, input) then SC_SERVICE_ERROR_COMPONENT_INFO_INVALID
                 else if input.enhanceRes != SC_OK then input.enhanceRes
                 else if v.accepted then SC_OK else SC_SERVICE_ERROR_CLICK_EVENT_INVALID)
    && v.count == (if !ReportFine(e, input) || !RectFine(e, input) then CountUnchanged
                   else if input.enhanceRes != SC_OK then CountAdded
                   else if EventFine(input.report.value, input, offset) && Forged(input) then CountResetThenAdded
                   else CountReset)
    && v.offset == (if ReportFine(e, input) then OffsetFor(input.report.value, input, offset) else offset)
    && v.entity.comp == (if stored then StoredReport(input.report.value, input, v.offset) else e.comp)
    && v.entity == e.(comp := v.entity.comp, bypassSecurityCheck := v.entity.bypassSecurityCheck)
    && (v.entity.bypassSecurityCheck <==>
          e.bypassSecurityCheck
          || (ReportFine(e, input) && !input.report.value.valid)
          || (ReportFine(e, input) && RectFine(e, input) && input.rectAnswer != RectValid))
  }

  lemma ReportJudged(e: EntityView, input: ClickInput, offset: int)
    ensures Judged(e, input, offset, JudgeReport(e, input, offset))
  {
    if input.report.Some? {
      var report := input.report.value;
      var offset1 := OffsetFor(report, input, offset);
      EventJudged(e.(comp := report), input, offset1);
      EventJudged(e.(comp := report, bypassSecurityCheck := true), input, offset1);
    }
  }

  lemma EventJudged(e: EntityView, input: ClickInput, offset: int)
    ensures var v := JudgeEvent(e, input, offset);
            var fine := (e.comp.ty == Save || !input.covered) && EventGenuine(e.comp, input, offset);
            && v.accepted == (fine && (input.extraRes == SC_OK || input.extraRes == SC_ENHANCE_ERROR_NOT_EXIST_ENHANCE))
            && v.res == (if v.accepted then SC_OK else SC_SERVICE_ERROR_CLICK_EVENT_INVALID)
            && v.count == (if fine && Forged(input) then CountResetThenAdded else CountReset)
            && v.entity == e.(comp := StoredReport(e.comp, input, offset)) && v.offset == offset
  {
    ClickCheckMeaning(e, input, offset);
    ClickCheckStores(e, input, offset);
    if CheckClick(e, input, offset).1 != SC_OK {
      ClickCheckFails(e, input, offset);
    }
  }

  /** A click is accepted exactly when it is acceptable; without custom authorisation nothing is excused. */
  lemma ClickSoundness(e: EntityView, input: ClickInput, offset: int)
    ensures JudgeClick(e, input, offset).accepted <==> Acceptable(e, input, offset)
    ensures JudgeClick(e, input, offset).accepted && !e.isCustomAuthorized ==>
            && (input.messageEmpty || input.bundleBypassed)
            && input.report.Some? && input.report.value.valid
            && input.rectAnswer == RectValid && input.enhanceRes == SC_OK
            && (input.report.value.ty == Save || !input.covered)
  {
    ReportJudged(e, input, offset);
    ReportJudged(e.(bypassSecurityCheck := true), input, offset);
  }

  /** What the application of a refused click is told: the first thing that failed decides. */
  lemma RefusedClick(e: EntityView, input: ClickInput, offset: int)
    requires !Acceptable(e, input, offset)
    ensures JudgeClick(e, input, offset).res ==
            if AlreadyGranted(e, input) then SC_OK
            else if !MessageFine(e, input) then SC_SERVICE_ERROR_CLICK_EVENT_INVALID
            else if !ReportFine(e, input) || !RectFine(e, input) then SC_SERVICE_ERROR_COMPONENT_INFO_INVALID
            else if input.enhanceRes != SC_OK then input.enhanceRes
            else SC_SERVICE_ERROR_CLICK_EVENT_INVALID
  {
    ReportJudged(e, input, offset);
    ReportJudged(e.(bypassSecurityCheck := true), input, offset);
  }

  /** When a click counts as a failure of its process, and when it ends a row of failures. */
  function CountFor(e: EntityView, input: ClickInput, offset: int): FailCount {
    if !Reported(e, input) then CountUnchanged
    else if input.enhanceRes != SC_OK then CountAdded
    else if EventFine(input.report.value, input, offset) && Forged(input) then CountResetThenAdded
    else CountReset
  }

  lemma ClickCounts(e: EntityView, input: ClickInput, offset: int)
    ensures JudgeClick(e, input, offset).count == CountFor(e, input, offset)
  {
    ReportJudged(e, input, offset);
    ReportJudged(e.(bypassSecurityCheck := true), input, offset);
  }

  predicate SameOwner(e: EntityView, e': EntityView) {
    && e'.scId == e.scId && e'.pid == e.pid && e'.token == e.token
    && e'.isCustomAuthorized == e.isCustomAuthorized && e'.isGrant == e.isGrant
  }

  /** Some check of the click failed and was passed over. */
  predicate PassedOver(e: EntityView, input: ClickInput) {
    && Excused(e)
    && (!input.messageEmpty
        || (ReportFine(e, input)
            && (!input.report.value.valid || (RectFine(e, input) && input.rectAnswer != RectValid))))
  }

  /**
   What a click leaves behind, exactly: the report is stored as soon as it and its
   rectangle pass and the enhanced check finds nothing, whatever the event; the fold
   offset is read as soon as the report passes; and the component is marked when a
   failed check was passed over. Everything else stays.
   */
  lemma ClickStoresReport(e: EntityView, input: ClickInput, offset: int)
    ensures var v := JudgeClick(e, input, offset);
            && SameOwner(e, v.entity)
            && v.entity.comp == (if Reported(e, input) && input.enhanceRes == SC_OK
                                 then StoredReport(input.report.value, input, v.offset) else e.comp)
            && v.offset == (if !AlreadyGranted(e, input) && MessageFine(e, input) && ReportFine(e, input)
                            then OffsetFor(input.report.value, input, offset) else offset)
            && v.entity.bypassSecurityCheck == (e.bypassSecurityCheck || PassedOver(e, input))
  {
    ReportJudged(e, input, offset);
    ReportJudged(e.(bypassSecurityCheck := true), input, offset);
  }

  lemma ClickKeepsIdentity(e: EntityView, input: ClickInput, offset: int)
    ensures SameOwner(e, JudgeClick(e, input, offset).entity)
  {
    ClickStoresReport(e, input, offset);
  }

  /** `c` is the report, its rectangle moved down by the fold offset at most once. */
  predicate StoredFrom(c: Component, report: Component, offset: int) {
    || c == report
    || (OnLowerDisplay(report) && !report.isCompatScale
        && c == report.(rect := report.rect.(y := report.rect.y + offset as real)))
  }

  class SecCompEntity {
    const scId: int
    const pid: int
    const token: TokenId
    var componentInfo: Component
    var isCustomAuthorized: bool
    var bypassSecurityCheck: bool
    var isGrant: bool

    constructor (component: Component, id: int, ownerPid: int, ownerToken: TokenId)
      ensures View() == EntityView(id, ownerPid, ownerToken, component, false, false, false)
    {
      scId, pid, token := id, ownerPid, ownerToken;
      componentInfo := component;
      isCustomAuthorized, bypassSecurityCheck, isGrant := false, false, false;
    }

    ghost function View(): EntityView
      reads this
    {
      EntityView(scId, pid, token, componentInfo, isCustomAuthorized, bypassSecurityCheck, isGrant)
    }

    method AllowToBypassSecurityCheck(messageEmpty: bool) returns (allowed: bool)
      modifies this`bypassSecurityCheck
      ensures allowed == MayBypass(old(View()), messageEmpty)
      ensures View() == WithBypass(old(View()), messageEmpty)
    {
      if messageEmpty || !isCustomAuthorized || componentInfo.ty != Save {
        return false;
      }
      bypassSecurityCheck := true;
      allowed := true;
    }

    method GrantTempPermission(manager: SecCompPermManager, first: Answer, second: Answer) returns (res: int)
      modifies this`isGrant, manager, manager.kit, manager.secHandler
      ensures View() == old(View()).(isGrant := true)
      ensures (manager.View(), res)
           == GrantUninterrupted(old(manager.View()), token, componentInfo.ty, Begin, first, second)
    {
      isGrant := true;
      res := manager.GrantTempPermission(token, componentInfo.ty, first, second);
    }

    method IsInPCVirtualScreen(cross: CrossAxisState) returns (r: bool)
      ensures r == InPCVirtualScreen(componentInfo, cross) == (componentInfo.displayId == 999 && cross == StateNoCross)
    {
      r := false;
      if componentInfo.displayId == FOLD_VIRTUAL_DISPLAY_ID {
        if cross == StateNoCross {
          r := true;
        }
      }
    }

    method CheckPointEvent(x: real, y: real, time: nat, offset: int, cross: CrossAxisState, now: Uint64)
      returns (res: int, touchY: real)
      ensures res == EventRes(componentInfo, PointEvent(x, y, time), offset, cross, now)
      ensures res == (if Recent(time, now)
                         && (Near(componentInfo.rect, x, y)
                             || (cross == StateCross && Near(componentInfo.rect, x, y + offset as real)))
                      then SC_OK else SC_SERVICE_ERROR_CLICK_EVENT_INVALID)
      ensures res == SC_OK ==> Near(componentInfo.rect, x, touchY) && (touchY == y || touchY == y + offset as real)
    {
      touchY := y;
      if time < (now - MAX_TOUCH_INTERVAL) % UINT64_RANGE || time > now {
        return SC_SERVICE_ERROR_CLICK_EVENT_INVALID, y;
      }
      if !IsInRect(componentInfo.rect, x, y) {
        if cross == StateCross && IsInRect(componentInfo.rect, x, y + offset as real) {
          return SC_OK, y + offset as real;
        }
        return SC_SERVICE_ERROR_CLICK_EVENT_INVALID, y;
      }
      res := SC_OK;
    }

    method CheckKeyEvent(time: nat, code: int, now: Uint64) returns (res: int)
      ensures forall offset, cross :: res == EventRes(componentInfo, KeyEvent(time, code), offset, cross, now)
      ensures res == if Recent(time, now) && (code == 2050 || code == 2054 || code == 2119)
                     then SC_OK else SC_SERVICE_ERROR_CLICK_EVENT_INVALID
    {
      if time < (now - MAX_TOUCH_INTERVAL) % UINT64_RANGE || time > now {
        return SC_SERVICE_ERROR_CLICK_EVENT_INVALID;
      }
      if code != KEY_SPACE && code != KEY_ENTER && code != KEY_NUMPAD_ENTER {
        return SC_SERVICE_ERROR_CLICK_EVENT_INVALID;
      }
      res := SC_OK;
    }

    /** `input` carries the answers of the window check and of the enhanced check. */
    method CheckClickInfo(input: ClickInput, offset: int) returns (res: int)
      modifies this
      ensures (View(), res) == CheckClick(old(View()), input, offset)
    {
      var cross := componentInfo.crossAxis;
      var inVirtual := IsInPCVirtualScreen(cross);
      var event := input.event;
      if inVirtual && event.PointEvent? {
        event := event.(touchY := event.touchY + offset as real);
        if !componentInfo.isCompatScale {
          componentInfo := componentInfo.(rect := Shifted(componentInfo.rect, offset as real));
        }
      }
      if componentInfo.ty != Save && input.covered {
        var allowed := AllowToBypassSecurityCheck(input.coverMessageEmpty);
        if !allowed {
          return SC_SERVICE_ERROR_CLICK_EVENT_INVALID;
        }
      }
      res := SC_SERVICE_ERROR_CLICK_EVENT_INVALID;
      match event {
        case PointEvent(x, y, time) =>
          var touchY;
          res, touchY := CheckPointEvent(x, y, time, offset, cross, input.now);
        case KeyEvent(time, code) =>
          res := CheckKeyEvent(time, code, input.now);
        case AccessibilityEvent =>
          res := SC_OK;
        case UnknownEvent =>
      }
      if res != SC_OK {
        return res;
      }
      res := input.extraRes;
      if res == SC_SERVICE_ERROR_CLICK_EVENT_INVALID {
        return res;
      }
      if res != SC_OK && res != SC_ENHANCE_ERROR_NOT_EXIST_ENHANCE {
        return SC_ENHANCE_ERROR_CLICK_EXTRA_CHECK_FAIL;
      }
      res := SC_OK;
    }
  }
}
