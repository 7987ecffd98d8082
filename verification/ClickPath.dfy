/** The code a click runs through on its way: parcels written step by step and read by cursor. */
module ClickPath {
  import opened Types
  import opened Parcel
  import opened ClickWire

  class SecCompRawdata {
    var size: nat
    var data: Option<Bytes>

    constructor ()
      ensures size == 0 && data == None
    {
      size, data := 0, None;
    }

    ghost predicate Valid()
      reads this
    {
      data.Some? ==> size == |data.value| && Copied(data.value).Some?
    }

    method RawDataCpy(b: Bytes) returns (res: int)
      requires size == |b|
      modifies this`data
      ensures if Copied(b).Some? then res == 0 && data == Copied(b) else res == -1 && data == old(data)
    {
      if size == 0 || size >= MAX_RAW_DATA_SIZE {
        return -1;
      }
      data := Some(b);
      res := 0;
    }
  }

  // SecCompEnhanceAdapter, when no vendor handler is installed

  /** An empty parcel leaves the raw data as it was. */
  method WriteMessageParcel(tmpData: MessageParcel, raw: SecCompRawdata) returns (ok: bool)
    modifies raw
    ensures tmpData.data == [] ==> ok && raw.size == old(raw.size) && raw.data == old(raw.data)
    ensures tmpData.data != [] ==>
            ok == Copied(tmpData.data).Some? && (ok ==> raw.Valid() && raw.data == Some(tmpData.data))
  {
    var bufferLength := |tmpData.data|;
    if bufferLength == 0 {
      return true;
    }
    raw.size := bufferLength;
    var ret := raw.RawDataCpy(tmpData.data);
    ok := ret == 0;
  }

  method ReadMessageParcel(raw: SecCompRawdata, data: MessageParcel) returns (ok: bool)
    requires raw.Valid()
    modifies data`data
    ensures ok == raw.data.Some?
    ensures data.data == if ok then old(data.data) + Padded(raw.data.value) else old(data.data)
  {
    if raw.data.None? {
      return false;
    }
    ok := data.WriteBuffer(raw.data.value);
  }

  class SecCompClickEventParcel {
    var event: WireEvent
    var extra: Bytes

    constructor (e: WireEvent, x: Bytes)
      ensures event == e && extra == x
    {
      event, extra := e, x;
    }

    method Marshalling(out: MessageParcel) returns (ok: bool)
      requires |extra| < UINT32_RANGE
      modifies out`data
      ensures ok == !event.UnknownEvent?
      ensures ok ==> out.data == old(out.data) + (EventBytes(event) + ExtraBytes(extra))
    {
      ok := MarshallingEvent(out);
      if !ok {
        return;
      }
      Assoc(old(out.data), EventBytes(event), ExtraBytes(extra));
      MarshallingExtra(out);
    }

    method MarshallingExtra(out: MessageParcel)
      requires |extra| < UINT32_RANGE
      modifies out`data
      ensures out.data == old(out.data) + ExtraBytes(extra)
    {
      out.WriteUint32(|extra|);
      if |extra| != 0 {
        Assoc(old(out.data), U32(|extra|), Padded(extra));
        var ok := out.WriteBuffer(extra);
      }
    }

    method MarshallingPointEvent(out: MessageParcel)
      requires event.PointEvent?
      modifies out`data
      ensures out.data == old(out.data) + (U64(event.touchX) + (U64(event.touchY) + U64(event.timestamp)))
    {
      out.WriteUint64(event.touchX);
      out.WriteUint64(event.touchY);
      out.WriteUint64(event.timestamp);
    }

    method MarshallingKeyEvent(out: MessageParcel)
      requires event.KeyEvent?
      modifies out`data
      ensures out.data == old(out.data) + (U64(event.timestamp) + I32(event.keyCode))
    {
      out.WriteUint64(event.timestamp);
      out.WriteInt32(event.keyCode);
    }

    method MarshallingAccessibilityEvent(out: MessageParcel)
      requires event.AccessibilityEvent?
      modifies out`data
      ensures out.data == old(out.data) + (U64(event.timestamp) + U64(event.componentId))
    {
      out.WriteUint64(event.timestamp);
      out.WriteUint64(event.componentId);
    }

    method MarshallingEvent(out: MessageParcel) returns (ok: bool)
      modifies out`data
      ensures ok == !event.UnknownEvent?
      ensures ok ==> out.data == old(out.data) + EventBytes(event)
    {
      ghost var before := out.data;
      out.WriteInt32(TypeCode(event));
      ok := true;
      match event {
        case PointEvent(_, _, _) => MarshallingPointEvent(out);
        case KeyEvent(_, _) => MarshallingKeyEvent(out);
        case AccessibilityEvent(_, _) => MarshallingAccessibilityEvent(out);
        case UnknownEvent(_) => ok := false;
      }
      if ok {
        assert out.data == before + I32(TypeCode(event)) + EventBody(event);
      }
    }
  }

  method UnmarshallingEvent(input: MessageParcel, ty: Int32) returns (event: Option<WireEvent>)
    requires input.Valid()
    modifies input`readCursor
    ensures input.Valid()
    ensures TakeEventOf(ty, old(input.Unread())) == if event.Some? then Taken(event.value, input.Unread()) else Short
  {
    event := None;
    if ty == POINT_EVENT_TYPE {
      var x := input.ReadUint64();
      if x.None? {
        return;
      }
      var y := input.ReadUint64();
      if y.None? {
        return;
      }
      var t := input.ReadUint64();
      if t.None? {
        return;
      }
      event := Some(PointEvent(x.value, y.value, t.value));
    } else if ty == KEY_EVENT_TYPE {
      var t := input.ReadUint64();
      if t.None? {
        return;
      }
      var code := input.ReadInt32();
      if code.None? {
        return;
      }
      event := Some(KeyEvent(t.value, code.value));
    } else if ty == ACCESSIBILITY_EVENT_TYPE {
      var t := input.ReadUint64();
      if t.None? {
        return;
      }
      var id := input.ReadUint64();
      if id.None? {
        return;
      }
      event := Some(AccessibilityEvent(t.value, id.value));
    }
  }

  method Unmarshalling(input: MessageParcel) returns (click: Option<(WireEvent, Bytes)>)
    requires input.Valid()
    modifies input`readCursor
    ensures input.Valid()
    ensures match TakeClick(old(input.Unread()))
            case Short => click == None
            case Taken(v, rest) => click == Some(v) && input.Unread() == rest
  {
    var ty := input.ReadInt32();
    if ty.None? {
      return None;
    }
    var event := UnmarshallingEvent(input, ty.value);
    if event.None? {
      return None;
    }
    var dataSize := input.ReadUint32();
    if dataSize.None? {
      return None;
    }
    if dataSize.value == 0 {
      return Some((event.value, []));
    } else if dataSize.value > MAX_EXTRA_SIZE {
      return None;
    }
    var data := input.ReadBuffer(dataSize.value);
    if data.None? {
      return None;
    }
    click := Some((event.value, data.value));
  }

  // The client

  lemma Regroup(a: Bytes, b: Bytes, c: Bytes, d: Bytes)
    ensures a + b + c + d == a + (b + (c + d))
  {
  }

  lemma RequestInTwoParts(r: ClickRequest)
    requires Sendable(r)
    ensures RequestBytes(r) == I32(r.scId) + Str(r.componentInfo) + Str(r.message)
                             + (I32(1) + (EventBytes(r.event) + ExtraBytes(r.extra)))
  {
    Regroup(I32(r.scId), Str(r.componentInfo), Str(r.message), I32(1) + (EventBytes(r.event) + ExtraBytes(r.extra)));
  }

  /** The id and the two strings. */
  method WriteHead(r: ClickRequest, dataParcel: MessageParcel) returns (ok: bool)
    requires dataParcel.data == []
    modifies dataParcel`data
    ensures ok == (Writable(r.componentInfo) && Writable(r.message))
    ensures ok ==> dataParcel.data == I32(r.scId) + Str(r.componentInfo) + Str(r.message)
  {
    dataParcel.WriteInt32(r.scId);
    assert dataParcel.data == I32(r.scId);
    ok := dataParcel.WriteString(r.componentInfo);
    if !ok {
      return;
    }
    ok := dataParcel.WriteString(r.message);
  }

  method WriteRequest(r: ClickRequest, dataParcel: MessageParcel) returns (ok: bool)
    requires |r.extra| < UINT32_RANGE && dataParcel.data == []
    modifies dataParcel`data
    ensures ok == Sendable(r) && (ok ==> dataParcel.data == RequestBytes(r))
  {
    ok := WriteHead(r, dataParcel);
    if !ok {
      return;
    }
    ok := WriteParcelable(r.event, r.extra, dataParcel);
    if ok {
      RequestInTwoParts(r);
    }
  }

  method WriteParcelable(event: WireEvent, extra: Bytes, dataParcel: MessageParcel) returns (ok: bool)
    requires |extra| < UINT32_RANGE
    modifies dataParcel`data
    ensures ok == !event.UnknownEvent?
    ensures ok ==> dataParcel.data == old(dataParcel.data) + (I32(1) + (EventBytes(event) + ExtraBytes(extra)))
  {
    var parcel := new SecCompClickEventParcel(event, extra);
    ghost var before := dataParcel.data;
    dataParcel.WriteInt32(1);
    assert dataParcel.data == before + I32(1);
    ok := parcel.Marshalling(dataParcel);
    if ok {
      Assoc(before, I32(1), EventBytes(event) + ExtraBytes(extra));
    }
  }

  method ClientReportWriteToRawdata(r: ClickRequest, raw: SecCompRawdata) returns (res: int)
    requires |r.extra| < UINT32_RANGE
    modifies raw
    ensures res == SC_OK || res == SC_SERVICE_ERROR_PARCEL_OPERATE_FAIL
    ensures res == SC_OK <==> Sendable(r) && Copied(RequestBytes(r)).Some?
    ensures res == SC_OK ==> raw.Valid() && raw.data == Some(RequestBytes(r))
  {
    res := SC_SERVICE_ERROR_PARCEL_OPERATE_FAIL;
    var dataParcel := new MessageParcel();
    var ok := WriteRequest(r, dataParcel);
    if !ok {
      return;
    }
    ok := WriteMessageParcel(dataParcel, raw);
    if !ok {
      return;
    }
    res := SC_OK;
  }

  method ClientReadReply(rawReply: SecCompRawdata, message: Bytes) returns (res: int, messageAfter: Bytes)
    requires rawReply.Valid() && rawReply.data.Some?
    ensures (res, messageAfter) == Receive(rawReply.data.value, message)
  {
    messageAfter := message;
    var reply := new MessageParcel();
    var ok := ReadMessageParcel(rawReply, reply);
    assert reply.Unread() == Padded(rawReply.data.value);
    var serviceRes := reply.ReadInt32();
    if serviceRes.None? {
      return SC_SERVICE_ERROR_PARCEL_OPERATE_FAIL, message;
    }
    var m := reply.ReadString();
    if m.None? {
      return SC_SERVICE_ERROR_PARCEL_OPERATE_FAIL, message;
    }
    res, messageAfter := serviceRes.value, m.value;
  }

  /** The transport hands the service the same bytes and brings its reply back. */
  method ClientReportSecurityComponentClickEvent(r: ClickRequest, body: ClickRequest -> (Int32, Bytes))
    returns (res: int, message: Bytes)
    requires |r.extra| < UINT32_RANGE
    ensures (res, message) == Report(r, body)
  {
    var raw := new SecCompRawdata();
    res := ClientReportWriteToRawdata(r, raw);
    if res != SC_OK {
      return res, r.message;
    }
    var rawReply := new SecCompRawdata();
    res := ServiceReportSecurityComponentClickEvent(raw, rawReply, body);
    res, message := ClientReadReply(rawReply, r.message);
  }

  // The service

  method WriteError(res: Int32, rawReply: SecCompRawdata) returns (r: int)
    modifies rawReply
    ensures r == SC_OK && rawReply.Valid() && rawReply.data == Some(ErrorReply(res))
  {
    var replyParcel := new MessageParcel();
    replyParcel.WriteInt32(res);
    assert replyParcel.data == ErrorReply(res);
    var ok := WriteMessageParcel(replyParcel, rawReply);
    r := SC_OK;
  }

  method ServiceReportWriteToRawdata(res: Int32, message: Bytes, rawReply: SecCompRawdata) returns (r: int)
    modifies rawReply
    ensures r == if Writable(message) && Copied(ReplyBytes(res, message)).Some? then SC_OK
            else SC_SERVICE_ERROR_PARCEL_OPERATE_FAIL
    ensures r == SC_OK ==> rawReply.Valid() && rawReply.data == Some(ReplyBytes(res, message))
  {
    var replyParcel := new MessageParcel();
    replyParcel.WriteInt32(res);
    var ok := replyParcel.WriteString(message);
    if !ok {
      return SC_SERVICE_ERROR_PARCEL_OPERATE_FAIL;
    }
    assert replyParcel.data == ReplyBytes(res, message);
    ok := WriteMessageParcel(replyParcel, rawReply);
    r := if ok then SC_OK else SC_SERVICE_ERROR_PARCEL_OPERATE_FAIL;
  }

  method ReadParcelable(input: MessageParcel) returns (click: Option<(WireEvent, Bytes)>)
    requires input.Valid()
    modifies input`readCursor
    ensures input.Valid()
    ensures match TakeParcelable(old(input.Unread()))
            case Short => click == None
            case Taken(v, rest) => click == Some(v) && input.Unread() == rest
  {
    var flag := input.ReadInt32();
    if flag.None? || flag.value == 0 {
      return None;
    }
    click := Unmarshalling(input);
  }

  method ReadRequest(raw: SecCompRawdata) returns (d: Decoded)
    requires raw.Valid() && raw.data.Some?
    ensures d == Decode(Padded(raw.data.value))
  {
    d := Refused(SC_SERVICE_ERROR_PARCEL_OPERATE_FAIL);
    var input := new MessageParcel();
    var ok := ReadMessageParcel(raw, input);
    assert input.Unread() == Padded(raw.data.value);
    var scId := input.ReadInt32();
    if scId.None? {
      return;
    }
    if scId.value < 0 {
      return Refused(SC_SERVICE_ERROR_VALUE_INVALID);
    }
    var componentInfo := input.ReadString();
    if componentInfo.None? {
      return;
    }
    var message := input.ReadString();
    if message.None? {
      return;
    }
    var click := ReadParcelable(input);
    if click.None? {
      return;
    }
    d := Request(ClickRequest(scId.value, componentInfo.value, message.value, click.value.0, click.value.1),
      input.Unread());
  }

  method ServiceReportSecurityComponentClickEvent(raw: SecCompRawdata, rawReply: SecCompRawdata,
        body: ClickRequest -> (Int32, Bytes))
    returns (res: int)
    requires raw.Valid() && raw.data.Some?
    modifies rawReply
    ensures res == SC_OK && rawReply.Valid() && rawReply.data == Some(Serve(old(raw.data.value), body))
  {
    var d := ReadRequest(raw);
    var code: Int32;
    match d {
      case Refused(r) =>
        code := r;
      case Request(r, _) =>
        var (bodyRes, message) := body(r);
        var written := ServiceReportWriteToRawdata(bodyRes, message, rawReply);
        code := written;
    }
    if code != SC_OK {
      var r := WriteError(code, rawReply);
    }
    res := SC_OK;
  }
}
