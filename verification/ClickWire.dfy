/** A click on its way from the client library to the service and back. */
module ClickWire {
  import opened Types
  import opened Parcel

  const MAX_EXTRA_SIZE := 0x1000
  const MAX_RAW_DATA_SIZE := 4096

  const POINT_EVENT_TYPE: Int32 := 1
  const KEY_EVENT_TYPE: Int32 := 2
  const ACCESSIBILITY_EVENT_TYPE: Int32 := 3

  /** Doubles and 64-bit numbers are carried as they are, bit by bit. */
  datatype WireEvent =
    | PointEvent(touchX: Word64, touchY: Word64, timestamp: Word64)
    | KeyEvent(timestamp: Word64, keyCode: Int32)
    | AccessibilityEvent(timestamp: Word64, componentId: Word64)
    | UnknownEvent(code: Int32)

  datatype ClickRequest = ClickRequest(scId: Int32, componentInfo: Bytes, message: Bytes, event: WireEvent,
        extra: Bytes)

  predicate Sendable(r: ClickRequest) {
    && Writable(r.componentInfo) && Writable(r.message) && !r.event.UnknownEvent? && |r.extra| < UINT32_RANGE
  }

  // Writing

  function TypeCode(e: WireEvent): Int32 {
    match e
    case PointEvent(_, _, _) => POINT_EVENT_TYPE
    case KeyEvent(_, _) => KEY_EVENT_TYPE
    case AccessibilityEvent(_, _) => ACCESSIBILITY_EVENT_TYPE
    case UnknownEvent(code) => code
  }

  function EventBody(e: WireEvent): Bytes
    requires !e.UnknownEvent?
  {
    match e
    case PointEvent(x, y, t) => U64(x) + (U64(y) + U64(t))
    case KeyEvent(t, code) => U64(t) + I32(code)
    case AccessibilityEvent(t, id) => U64(t) + U64(id)
  }

  function EventBytes(e: WireEvent): Bytes
    requires !e.UnknownEvent?
  {
    I32(TypeCode(e)) + EventBody(e)
  }

  function ExtraBytes(extra: Bytes): Bytes
    requires |extra| < UINT32_RANGE
  {
    U32(|extra|) + if extra == [] then [] else Padded(extra)
  }

  function RequestBytes(r: ClickRequest): Bytes
    requires Sendable(r)
  {
    I32(r.scId) + (Str(r.componentInfo) + (Str(r.message) + (I32(1) + (EventBytes(r.event) + ExtraBytes(r.extra)))))
  }

  /** A parcel is copied only when it is shorter than the limit. */
  function Copied(b: Bytes): Option<Bytes> {
    if 0 < |b| < MAX_RAW_DATA_SIZE then Some(b) else None
  }

  // Reading

  function TakePoint(s: Bytes): Taken<WireEvent> {
    match TakeU64(s)
    case Short => Short
    case Taken(x, s1) =>
      match TakeU64(s1)
      case Short => Short
      case Taken(y, s2) =>
        match TakeU64(s2)
        case Short => Short
        case Taken(t, s3) => Taken(PointEvent(x, y, t), s3)
  }

  function TakeKey(s: Bytes): Taken<WireEvent> {
    match TakeU64(s)
    case Short => Short
    case Taken(t, s1) =>
      match TakeI32(s1)
      case Short => Short
      case Taken(key, s2) => Taken(KeyEvent(t, key), s2)
  }

  function TakeAccessibility(s: Bytes): Taken<WireEvent> {
    match TakeU64(s)
    case Short => Short
    case Taken(t, s1) =>
      match TakeU64(s1)
      case Short => Short
      case Taken(id, s2) => Taken(AccessibilityEvent(t, id), s2)
  }

  function TakeEventOf(ty: Int32, s: Bytes): Taken<WireEvent> {
    if ty == POINT_EVENT_TYPE then TakePoint(s)
    else if ty == KEY_EVENT_TYPE then TakeKey(s)
    else if ty == ACCESSIBILITY_EVENT_TYPE then TakeAccessibility(s)
    else Short
  }

  function TakeEvent(s: Bytes): Taken<WireEvent> {
    match TakeI32(s)
    case Short => Short
    case Taken(ty, s1) => TakeEventOf(ty, s1)
  }

  function TakeExtra(s: Bytes): Taken<Bytes> {
    match TakeU32(s)
    case Short => Short
    case Taken(size, s1) =>
      if size == 0 then Taken([], s1)
      else if size > MAX_EXTRA_SIZE then Short
      else TakeBuffer(s1, size)
  }

  function TakeClick(s: Bytes): Taken<(WireEvent, Bytes)> {
    match TakeEvent(s)
    case Short => Short
    case Taken(e, s1) =>
      match TakeExtra(s1)
      case Short => Short
      case Taken(extra, s2) => Taken((e, extra), s2)
  }

  /** A parcelable is preceded by a number that is 0 for a null one; a missing number reads as 0. */
  function TakeParcelable(s: Bytes): Taken<(WireEvent, Bytes)> {
    match TakeI32(s)
    case Short => Short
    case Taken(flag, s1) => if flag == 0 then Short else TakeClick(s1)
  }

  datatype Decoded = Refused(res: Int32) | Request(value: ClickRequest, rest: Bytes)

  function Decode(s: Bytes): Decoded {
    match TakeI32(s)
    case Short => Refused(SC_SERVICE_ERROR_PARCEL_OPERATE_FAIL)
    case Taken(scId, s1) =>
      if scId < 0 then Refused(SC_SERVICE_ERROR_VALUE_INVALID)
      else
        match TakeStr(s1)
        case Short => Refused(SC_SERVICE_ERROR_PARCEL_OPERATE_FAIL)
        case Taken(info, s2) =>
          match TakeStr(s2)
          case Short => Refused(SC_SERVICE_ERROR_PARCEL_OPERATE_FAIL)
          case Taken(message, s3) =>
            match TakeParcelable(s3)
            case Short => Refused(SC_SERVICE_ERROR_PARCEL_OPERATE_FAIL)
            case Taken(click, s4) => Request(ClickRequest(scId, info, message, click.0, click.1), s4)
  }

  lemma PointBack(x: Word64, y: Word64, t: Word64, rest: Bytes)
    ensures TakeEvent(EventBytes(PointEvent(x, y, t)) + rest) == Taken(PointEvent(x, y, t), rest)
  {
    var s3 := U64(t) + rest;
    var s2 := U64(y) + s3;
    var s1 := U64(x) + s2;
    assert EventBytes(PointEvent(x, y, t)) + rest == I32(POINT_EVENT_TYPE) + s1;
    I32Back(POINT_EVENT_TYPE, s1);
    U64Back(x, s2);
    U64Back(y, s3);
    U64Back(t, rest);
  }

  lemma KeyBack(t: Word64, code: Int32, rest: Bytes)
    ensures TakeEvent(EventBytes(KeyEvent(t, code)) + rest) == Taken(KeyEvent(t, code), rest)
  {
    var s2 := I32(code) + rest;
    var s1 := U64(t) + s2;
    assert EventBytes(KeyEvent(t, code)) + rest == I32(KEY_EVENT_TYPE) + s1;
    I32Back(KEY_EVENT_TYPE, s1);
    U64Back(t, s2);
    I32Back(code, rest);
  }

  lemma AccessibilityBack(t: Word64, id: Word64, rest: Bytes)
    ensures TakeEvent(EventBytes(AccessibilityEvent(t, id)) + rest) == Taken(AccessibilityEvent(t, id), rest)
  {
    var s2 := U64(id) + rest;
    var s1 := U64(t) + s2;
    assert EventBytes(AccessibilityEvent(t, id)) + rest == I32(ACCESSIBILITY_EVENT_TYPE) + s1;
    I32Back(ACCESSIBILITY_EVENT_TYPE, s1);
    U64Back(t, s2);
    U64Back(id, rest);
  }

  lemma EventBack(e: WireEvent, rest: Bytes)
    requires !e.UnknownEvent?
    ensures TakeEvent(EventBytes(e) + rest) == Taken(e, rest)
  {
    match e {
      case PointEvent(x, y, t) => PointBack(x, y, t, rest);
      case KeyEvent(t, code) => KeyBack(t, code, rest);
      case AccessibilityEvent(t, id) => AccessibilityBack(t, id, rest);
    }
  }

  lemma ExtraBack(extra: Bytes, rest: Bytes)
    requires |extra| <= MAX_EXTRA_SIZE
    ensures TakeExtra(ExtraBytes(extra) + rest) == Taken(extra, rest)
  {
    var tail := (if extra == [] then [] else Padded(extra)) + rest;
    assert ExtraBytes(extra) + rest == U32(|extra|) + tail;
    U32Back(|extra|, tail);
    if extra == [] {
      assert tail == rest;
    } else {
      BufferBack(extra, rest);
    }
  }

  lemma ParcelableBack(ev: Bytes, ex: Bytes, rest: Bytes, e: WireEvent, extra: Bytes)
    requires TakeEvent(ev + (ex + rest)) == Taken(e, ex + rest) && TakeExtra(ex + rest) == Taken(extra, rest)
    ensures TakeParcelable((I32(1) + (ev + ex)) + rest) == Taken((e, extra), rest)
  {
    Assoc(I32(1), ev + ex, rest);
    Assoc(ev, ex, rest);
    I32Back(1, ev + (ex + rest));
  }

  lemma ClickBack(e: WireEvent, extra: Bytes, rest: Bytes)
    requires !e.UnknownEvent? && |extra| <= MAX_EXTRA_SIZE
    ensures TakeParcelable((I32(1) + (EventBytes(e) + ExtraBytes(extra))) + rest) == Taken((e, extra), rest)
  {
    EventBack(e, ExtraBytes(extra) + rest);
    ExtraBack(extra, rest);
    ParcelableBack(EventBytes(e), ExtraBytes(extra), rest, e, extra);
  }

  /** The service decodes exactly what the client encoded and consumes exactly those bytes. */
  lemma RequestBack(r: ClickRequest)
    requires Sendable(r) && |r.extra| <= MAX_EXTRA_SIZE
    ensures Decode(RequestBytes(r)) == if r.scId < 0 then Refused(SC_SERVICE_ERROR_VALUE_INVALID) else Request(r, [])
  {
    var s3 := I32(1) + (EventBytes(r.event) + ExtraBytes(r.extra));
    var s2 := Str(r.message) + s3;
    var s1 := Str(r.componentInfo) + s2;
    I32Back(r.scId, s1);
    StrBack(r.componentInfo, s2);
    StrBack(r.message, s3);
    assert s3 + [] == s3;
    ClickBack(r.event, r.extra, []);
  }

  // The whole trip

  function ReplyBytes(res: Int32, message: Bytes): Bytes
    requires Writable(message)
  {
    I32(res) + Str(message)
  }

  /** An error reply carries the result alone, without a message. */
  function ErrorReply(res: Int32): Bytes {
    I32(res)
  }

  /**
   Copied bytes are padded once more when they are put into a parcel to be read. `body`
   stands for everything the service does with a decoded request: a result and the
   message afterwards.
   */
  function Serve(raw: Bytes, body: ClickRequest -> (Int32, Bytes)): Bytes {
    match Decode(Padded(raw))
    case Refused(res) => ErrorReply(res)
    case Request(r, _) =>
      var (res, message) := body(r);
      if !Writable(message) || Copied(ReplyBytes(res, message)).None? then
        ErrorReply(SC_SERVICE_ERROR_PARCEL_OPERATE_FAIL)
      else ReplyBytes(res, message)
  }

  function Receive(reply: Bytes, message: Bytes): (Int32, Bytes) {
    match TakeI32(Padded(reply))
    case Short => (SC_SERVICE_ERROR_PARCEL_OPERATE_FAIL, message)
    case Taken(res, s1) =>
      match TakeStr(s1)
      case Short => (SC_SERVICE_ERROR_PARCEL_OPERATE_FAIL, message)
      case Taken(m, _) => (res, m)
  }

  function Report(r: ClickRequest, body: ClickRequest -> (Int32, Bytes)): (Int32, Bytes) {
    if !Sendable(r) || Copied(RequestBytes(r)).None? then (SC_SERVICE_ERROR_PARCEL_OPERATE_FAIL, r.message)
    else Receive(Serve(RequestBytes(r), body), r.message)
  }

  /** Sizes in bytes, each part padded to four. */
  function Whole(n: nat): nat {
    (n + 3) / 4 * 4
  }

  function StrSize(s: Bytes): nat {
    4 + Whole(|s| + 1)
  }

  function EventSize(e: WireEvent): nat {
    match e
    case PointEvent(_, _, _) => 28
    case KeyEvent(_, _) => 16
    case AccessibilityEvent(_, _) => 20
    case UnknownEvent(_) => 4
  }

  function RequestSize(r: ClickRequest): nat {
    4 + StrSize(r.componentInfo) + StrSize(r.message) + 4 + EventSize(r.event) + 4 + Whole(|r.extra|)
  }

  lemma PaddedSize(b: Bytes)
    ensures |Padded(b)| == Whole(|b|)
  {
  }

  lemma PaddedWhole(b: Bytes)
    requires |b| % 4 == 0
    ensures Padded(b) == b
  {
  }

  lemma RequestBytesSize(r: ClickRequest)
    requires Sendable(r)
    ensures |RequestBytes(r)| == RequestSize(r)
  {
    PaddedSize(r.componentInfo + [0]);
    PaddedSize(r.message + [0]);
    PaddedSize(r.extra);
  }

  lemma RequestSizeWhole(r: ClickRequest)
    ensures RequestSize(r) % 4 == 0
  {
  }

  lemma SmallIsSendable(r: ClickRequest)
    requires RequestSize(r) < MAX_RAW_DATA_SIZE && !r.event.UnknownEvent?
    ensures Sendable(r) && |r.extra| < MAX_EXTRA_SIZE
  {
  }

  /** The request and the reply both fit, the id and the event are possible ones. */
  predicate Delivered(r: ClickRequest, body: ClickRequest -> (Int32, Bytes)) {
    && 0 <= r.scId && !r.event.UnknownEvent?
    && RequestSize(r) < 4096 && 4 + StrSize(body(r).1) < 4096
  }

  lemma ErrorReplyHasNoMessage(res: Int32, message: Bytes)
    ensures Receive(ErrorReply(res), message) == (SC_SERVICE_ERROR_PARCEL_OPERATE_FAIL, message)
  {
  }

  lemma ReplyBack(res: Int32, m: Bytes, message: Bytes)
    requires Writable(m)
    ensures Receive(ReplyBytes(res, m), message) == (res, m)
    ensures |ReplyBytes(res, m)| == 4 + StrSize(m)
  {
    assert Padded(ReplyBytes(res, m)) == ReplyBytes(res, m);
    I32Back(res, Str(m));
    assert Str(m) + [] == Str(m);
    StrBack(m, []);
    PaddedSize(m + [0]);
  }

  lemma ServedBack(raw: Bytes, message: Bytes, body: ClickRequest -> (Int32, Bytes))
    ensures Receive(Serve(raw, body), message)
         == match Decode(Padded(raw))
            case Refused(_) => (SC_SERVICE_ERROR_PARCEL_OPERATE_FAIL, message)
            case Request(r, _) =>
              if 4 + StrSize(body(r).1) < MAX_RAW_DATA_SIZE then body(r)
                else (SC_SERVICE_ERROR_PARCEL_OPERATE_FAIL, message)
  {
    match Decode(Padded(raw)) {
      case Refused(res) => ErrorReplyHasNoMessage(res, message);
      case Request(r, _) =>
        var (res, m) := body(r);
        ErrorReplyHasNoMessage(SC_SERVICE_ERROR_PARCEL_OPERATE_FAIL, message);
        if Writable(m) {
          ReplyBack(res, m, message);
        }
    }
  }

  /**
   For every request and every behaviour of the service: the client returns the
   service's own result and message exactly for the delivered requests. Any other
   request gives the parcel error and leaves the message alone, whatever the
   service's own refusal was.
   */
  lemma ClickRoundTrip(r: ClickRequest, body: ClickRequest -> (Int32, Bytes))
    ensures Report(r, body) == if Delivered(r, body) then body(r) else (SC_SERVICE_ERROR_PARCEL_OPERATE_FAIL, r.message)
  {
    if RequestSize(r) < MAX_RAW_DATA_SIZE && !r.event.UnknownEvent? {
      SmallIsSendable(r);
      RequestBytesSize(r);
      RequestBack(r);
      RequestSizeWhole(r);
      PaddedWhole(RequestBytes(r));
      ServedBack(RequestBytes(r), r.message, body);
    } else if Sendable(r) {
      RequestBytesSize(r);
    }
  }

  /** Whatever the bytes, a request the service accepts has a known event and bounded extra data. */
  lemma DecodedIsSound(s: Bytes)
    ensures Decode(s).Request? ==>
              var r := Decode(s).value;
              0 <= r.scId && !r.event.UnknownEvent? && |r.extra| <= 0x1000
  {
  }

  // Where each part stands

  /** The word at place `i`, lowest byte first. */
  function Word(b: Bytes, i: nat): nat
    requires i + 4 <= |b|
  {
    b[i] as int + 0x100 * b[i + 1] as int + 0x1_0000 * b[i + 2] as int + 0x100_0000 * b[i + 3] as int
  }

  predicate HasWord(b: Bytes, i: nat, n: int) {
    i + 4 <= |b| && Word(b, i) == n % 0x1_0000_0000
  }

  /** Low word first. */
  predicate HasLong(b: Bytes, i: nat, n: Word64) {
    HasWord(b, i, n % 0x1_0000_0000) && HasWord(b, i + 4, n / 0x1_0000_0000)
  }

  /** The length, the bytes, a zero, and up to three bytes of padding. */
  predicate HasStr(b: Bytes, i: nat, s: Bytes) {
    HasWord(b, i, |s|) && i + 4 + |s| < |b| && b[i + 4..i + 4 + |s|] == s && b[i + 4 + |s|] == 0
  }

  predicate HasEvent(b: Bytes, i: nat, e: WireEvent) {
    match e
    case PointEvent(x, y, t) =>
      HasWord(b, i, 1) && HasLong(b, i + 4, x) && HasLong(b, i + 12, y) && HasLong(b, i + 20, t)
    case KeyEvent(t, code) => HasWord(b, i, 2) && HasLong(b, i + 4, t) && HasWord(b, i + 12, code)
    case AccessibilityEvent(t, id) => HasWord(b, i, 3) && HasLong(b, i + 4, t) && HasLong(b, i + 12, id)
    case UnknownEvent(_) => false
  }

  predicate HasExtra(b: Bytes, i: nat, extra: Bytes) {
    HasWord(b, i, |extra|) && i + 4 + |extra| <= |b| && b[i + 4..i + 4 + |extra|] == extra
  }

  lemma WordFirst(n: Word32, rest: Bytes)
    ensures HasWord(U32(n) + rest, 0, n)
  {
    DigitsOf(n);
  }

  lemma WordShifts(a: Bytes, b: Bytes, i: nat, n: int)
    requires HasWord(b, i, n)
    ensures HasWord(a + b, |a| + i, n)
  {
  }

  lemma LongFirst(n: Word64, rest: Bytes)
    ensures HasLong(U64(n) + rest, 0, n)
  {
    var (low, high) := (U32(n % UINT32_RANGE), U32(n / UINT32_RANGE));
    Assoc(low, high, rest);
    WordFirst(n % UINT32_RANGE, high + rest);
    WordFirst(n / UINT32_RANGE, rest);
    WordShifts(low, high + rest, 0, n / UINT32_RANGE);
  }

  lemma LongShifts(a: Bytes, b: Bytes, i: nat, n: Word64)
    requires HasLong(b, i, n)
    ensures HasLong(a + b, |a| + i, n)
  {
    WordShifts(a, b, i, n % UINT32_RANGE);
    WordShifts(a, b, i + 4, n / UINT32_RANGE);
  }

  lemma TextFrom(b: Bytes, word: Bytes, text: Bytes, rest: Bytes, s: Bytes)
    requires b == word + text && |word| == 4 && HasWord(word + (text + rest), 0, |s|) && s + [0] <= text
    ensures HasStr(b + rest, 0, s)
  {
    Assoc(word, text, rest);
    StartsWith(s + [0], text, rest);
    TextFollows(word, s, text + rest);
  }

  lemma StrParts(s: Bytes) returns (word: Bytes, text: Bytes)
    requires Writable(s)
    ensures Str(s) == word + text && word == U32(|s|) && s + [0] <= text
  {
    word, text := U32(|s|), Padded(s + [0]);
  }

  lemma StrFirst(s: Bytes, rest: Bytes)
    requires Writable(s)
    ensures HasStr(Str(s) + rest, 0, s)
  {
    var word, text := StrParts(s);
    WordFirst(|s|, text + rest);
    TextFrom(Str(s), word, text, rest, s);
  }

  lemma StartsWith(s: Bytes, text: Bytes, rest: Bytes)
    requires s <= text
    ensures s <= text + rest
  {
  }

  lemma TextFollows(word: Bytes, s: Bytes, text: Bytes)
    requires |word| == 4 && s + [0] <= text
    ensures var b := word + text; 4 + |s| < |b| && b[4..4 + |s|] == s && b[4 + |s|] == 0
  {
    assert text[..|s|] == s && text[|s|] == 0;
  }

  lemma StrShifts(a: Bytes, b: Bytes, i: nat, s: Bytes)
    requires HasStr(b, i, s)
    ensures HasStr(a + b, |a| + i, s)
  {
    WordShifts(a, b, i, |s|);
    assert (a + b)[|a| + i + 4..|a| + i + 4 + |s|] == b[i + 4..i + 4 + |s|];
  }

  lemma ExtraFirst(extra: Bytes)
    requires |extra| < UINT32_RANGE
    ensures HasExtra(ExtraBytes(extra), 0, extra)
  {
    var rest: Bytes := if extra == [] then [] else Padded(extra);
    WordFirst(|extra|, rest);
    assert (U32(|extra|) + rest)[4..4 + |extra|] == extra;
  }

  lemma ExtraShifts(a: Bytes, b: Bytes, i: nat, extra: Bytes)
    requires HasExtra(b, i, extra)
    ensures HasExtra(a + b, |a| + i, extra)
  {
    WordShifts(a, b, i, |extra|);
    assert (a + b)[|a| + i + 4..|a| + i + 4 + |extra|] == b[i + 4..i + 4 + |extra|];
  }

  lemma TwoLongs(a: Word64, b: Word64, rest: Bytes)
    ensures HasLong(U64(a) + (U64(b) + rest), 0, a) && HasLong(U64(a) + (U64(b) + rest), 8, b)
  {
    LongFirst(a, U64(b) + rest);
    LongFirst(b, rest);
    LongShifts(U64(a), U64(b) + rest, 0, b);
  }

  lemma PointFirst(x: Word64, y: Word64, t: Word64, rest: Bytes)
    ensures var b := EventBody(PointEvent(x, y, t)) + rest;
            HasLong(b, 0, x) && HasLong(b, 8, y) && HasLong(b, 16, t)
  {
    var body := U64(x) + (U64(y) + (U64(t) + rest));
    assert EventBody(PointEvent(x, y, t)) + rest == body by {
      Assoc(U64(x), U64(y) + U64(t), rest);
      Assoc(U64(y), U64(t), rest);
    }
    LongFirst(x, U64(y) + (U64(t) + rest));
    TwoLongs(y, t, rest);
    LongShifts(U64(x), U64(y) + (U64(t) + rest), 0, y);
    LongShifts(U64(x), U64(y) + (U64(t) + rest), 8, t);
  }

  lemma KeyFirst(t: Word64, code: Int32, rest: Bytes)
    ensures var b := EventBody(KeyEvent(t, code)) + rest; HasLong(b, 0, t) && HasWord(b, 8, code)
  {
    Assoc(U64(t), I32(code), rest);
    LongFirst(t, I32(code) + rest);
    WordFirst(code % UINT32_RANGE, rest);
    WordShifts(U64(t), I32(code) + rest, 0, code);
  }

  lemma AccessibilityFirst(t: Word64, id: Word64, rest: Bytes)
    ensures var b := EventBody(AccessibilityEvent(t, id)) + rest; HasLong(b, 0, t) && HasLong(b, 8, id)
  {
    Assoc(U64(t), U64(id), rest);
    TwoLongs(t, id, rest);
  }

  lemma EventFirst(e: WireEvent, rest: Bytes)
    requires !e.UnknownEvent?
    ensures HasEvent(EventBytes(e) + rest, 0, e) && |EventBytes(e)| == EventSize(e)
  {
    var (code, body) := (I32(TypeCode(e)), EventBody(e) + rest);
    Assoc(code, EventBody(e), rest);
    WordFirst(TypeCode(e) % UINT32_RANGE, body);
    match e {
      case PointEvent(x, y, t) =>
        PointFirst(x, y, t, rest);
        LongShifts(code, body, 0, x);
        LongShifts(code, body, 8, y);
        LongShifts(code, body, 16, t);
      case KeyEvent(t, key) =>
        KeyFirst(t, key, rest);
        LongShifts(code, body, 0, t);
        WordShifts(code, body, 8, key);
      case AccessibilityEvent(t, id) =>
        AccessibilityFirst(t, id, rest);
        LongShifts(code, body, 0, t);
        LongShifts(code, body, 8, id);
    }
  }

  lemma EventShifts(a: Bytes, b: Bytes, i: nat, e: WireEvent)
    requires HasEvent(b, i, e)
    ensures HasEvent(a + b, |a| + i, e)
  {
    WordShifts(a, b, i, TypeCode(e));
    match e {
      case PointEvent(x, y, t) =>
        LongShifts(a, b, i + 4, x);
        LongShifts(a, b, i + 12, y);
        LongShifts(a, b, i + 20, t);
      case KeyEvent(t, code) =>
        LongShifts(a, b, i + 4, t);
        WordShifts(a, b, i + 12, code);
      case AccessibilityEvent(t, id) =>
        LongShifts(a, b, i + 4, t);
        LongShifts(a, b, i + 12, id);
    }
  }

  /** The event parcelable: a flag, the event, the extra data. */
  lemma ParcelableLayout(e: WireEvent, extra: Bytes)
    requires !e.UnknownEvent? && |extra| < UINT32_RANGE
    ensures var b := I32(1) + (EventBytes(e) + ExtraBytes(extra));
            HasWord(b, 0, 1) && HasEvent(b, 4, e) && HasExtra(b, 4 + EventSize(e), extra)
  {
    var ev, ex := EventBytes(e), ExtraBytes(extra);
    WordFirst(1, ev + ex);
    EventFirst(e, ex);
    ExtraFirst(extra);
    ExtraShifts(ev, ex, 0, extra);
    EventShifts(I32(1), ev + ex, 0, e);
    ExtraShifts(I32(1), ev + ex, EventSize(e), extra);
  }

  /** What follows the description of the component: the message, a flag, the event and its extra data. */
  predicate HasTail(b: Bytes, i: nat, message: Bytes, e: WireEvent, extra: Bytes) {
    var p := i + StrSize(message);
    && HasStr(b, i, message) && HasWord(b, p, 1) && HasEvent(b, p + 4, e)
    && HasExtra(b, p + 4 + EventSize(e), extra)
  }

  lemma TailFrom(text: Bytes, last: Bytes, message: Bytes, e: WireEvent, extra: Bytes)
    requires HasStr(text + last, 0, message) && |text| == StrSize(message)
    requires HasWord(last, 0, 1) && HasEvent(last, 4, e) && HasExtra(last, 4 + EventSize(e), extra)
    ensures HasTail(text + last, 0, message, e, extra)
  {
    WordShifts(text, last, 0, 1);
    EventShifts(text, last, 4, e);
    ExtraShifts(text, last, 4 + EventSize(e), extra);
  }

  lemma TailShifts(a: Bytes, b: Bytes, i: nat, message: Bytes, e: WireEvent, extra: Bytes)
    requires HasTail(b, i, message, e, extra)
    ensures HasTail(a + b, |a| + i, message, e, extra)
  {
    var p := i + StrSize(message);
    StrShifts(a, b, i, message);
    WordShifts(a, b, p, 1);
    EventShifts(a, b, p + 4, e);
    ExtraShifts(a, b, p + 4 + EventSize(e), extra);
  }

  lemma InfoAt(b: Bytes, id: Bytes, rest: Bytes, info: Bytes)
    requires b == id + rest && |id| == 4 && HasStr(rest, 0, info)
    ensures HasStr(b, 4, info)
  {
    StrShifts(id, rest, 0, info);
  }

  lemma TailAt(b: Bytes, id: Bytes, text: Bytes, tail: Bytes, r: ClickRequest, n: nat)
    requires b == id + (text + tail) && |id| == 4 && n == 4 + |text| && HasTail(tail, 0, r.message, r.event, r.extra)
    ensures HasTail(b, n, r.message, r.event, r.extra)
  {
    TailShifts(text, tail, 0, r.message, r.event, r.extra);
    TailShifts(id, text + tail, |text|, r.message, r.event, r.extra);
  }

  lemma TextSize(s: Bytes)
    requires Writable(s)
    ensures |Str(s)| == StrSize(s)
  {
    PaddedSize(s + [0]);
  }

  /** Each part of a request stands at its place. */
  predicate HasRequest(b: Bytes, r: ClickRequest) {
    && HasWord(b, 0, r.scId) && HasStr(b, 4, r.componentInfo)
    && HasTail(b, 4 + StrSize(r.componentInfo), r.message, r.event, r.extra)
  }

  lemma RequestFrom(b: Bytes, id: Bytes, text: Bytes, tail: Bytes, r: ClickRequest)
    requires b == id + (text + tail) && |id| == 4 && |text| == StrSize(r.componentInfo) && HasWord(b, 0, r.scId)
    requires HasStr(text + tail, 0, r.componentInfo) && HasTail(tail, 0, r.message, r.event, r.extra)
    ensures HasRequest(b, r)
  {
    var n := 4 + StrSize(r.componentInfo);
    assert HasStr(b, 4, r.componentInfo) by {
      InfoAt(b, id, text + tail, r.componentInfo);
    }
    assert HasTail(b, n, r.message, r.event, r.extra) by {
      TailAt(b, id, text, tail, r, n);
    }
  }

  lemma TailParts(r: ClickRequest) returns (tail: Bytes)
    requires Sendable(r)
    ensures tail == Str(r.message) + (I32(1) + (EventBytes(r.event) + ExtraBytes(r.extra)))
    ensures HasTail(tail, 0, r.message, r.event, r.extra)
  {
    var last := I32(1) + (EventBytes(r.event) + ExtraBytes(r.extra));
    tail := Str(r.message) + last;
    ParcelableLayout(r.event, r.extra);
    StrFirst(r.message, last);
    TextSize(r.message);
    TailFrom(Str(r.message), last, r.message, r.event, r.extra);
  }

  lemma HeadParts(scId: Int32, info: Bytes, tail: Bytes) returns (id: Bytes, text: Bytes)
    requires Writable(info)
    ensures id == I32(scId) && text == Str(info) && |id| == 4 && |text| == StrSize(info)
    ensures HasWord(id + (text + tail), 0, scId) && HasStr(text + tail, 0, info)
  {
    id, text := I32(scId), Str(info);
    WordFirst(scId % UINT32_RANGE, text + tail);
    StrFirst(info, tail);
    TextSize(info);
  }

  /** Where each part of a request stands, byte by byte: the format both sides must keep to. */
  lemma RequestLayout(r: ClickRequest)
    requires Sendable(r)
    ensures HasRequest(RequestBytes(r), r)
  {
    var tail := TailParts(r);
    var id, text := HeadParts(r.scId, r.componentInfo, tail);
    RequestFrom(RequestBytes(r), id, text, tail, r);
  }

  /** A reply is its result and, unless it is an error, its message. */
  lemma ReplyLayout(res: Int32, message: Bytes)
    requires Writable(message)
    ensures HasWord(ReplyBytes(res, message), 0, res) && HasStr(ReplyBytes(res, message), 4, message)
    ensures HasWord(ErrorReply(res), 0, res) && |ErrorReply(res)| == 4
  {
    assert Str(message) + [] == Str(message);
    assert I32(res) + [] == I32(res);
    WordFirst(res % UINT32_RANGE, Str(message));
    WordFirst(res % UINT32_RANGE, []);
    StrFirst(message, []);
    StrShifts(I32(res), Str(message), 0, message);
  }
}
