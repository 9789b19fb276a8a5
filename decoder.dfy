/**
 * The read path of the mapper (`GetMonitor`): the "getMonitors" request
 * for one identifier, and the decoding of the service's answer into a
 * `Monitor`. Enumeration codes become names, type-specific fields are read
 * only for the types that carry them, and the alert contacts are sorted by
 * ID in place.
 */
module Decoder {
  import opened Wrappers
  import opened Decimal
  import opened Enums
  import opened Monitors
  import opened Forms
  import opened ContactSort

  /**
   * One monitor record of the JSON answer, with JSON numbers read as
   * integers. `httpAuthTypeCode` is `None` when the service leaves the
   * field out.
   */
  datatype WireMonitor = WireMonitor(
    friendlyName: string,
    url: string,
    typeCode: int,
    statusCode: int,
    interval: int,
    httpMethodCode: int,
    subTypeCode: int,
    port: int,
    keywordTypeCode: int,
    keywordValue: string,
    httpAuthTypeCode: Option<int>,
    httpUsername: string,
    httpPassword: string,
    postValue: map<string, string>,
    sslIgnoreErrors: int,
    customHttpHeaders: map<string, string>,
    alertContacts: seq<AlertContact>)

  /**
   * The decoded answer of "getMonitors": its `monitors` list when the body
   * has one, and the body's JSON text for the error message.
   */
  datatype Response = Response(monitors: Option<seq<WireMonitor>>, raw: string)

  datatype Error = UnknownResponse(raw: string) | NotFound(id: int)

  const UnknownResponsePrefix := "Unknown response from the server: "

  const NotFoundPrefix := "Monitor not found: "

  /**
   * Go's `string(id)` on an integer: the one-character string of that code
   * point, or U+FFFD when it is not a Unicode scalar value.
   */
  function RuneText(id: int): (s: string)
    ensures |s| == 1
  {
    if 0 <= id < 0xD800 || 0xE000 <= id <= 0x10FFFF then [id as char] else "\U{FFFD}"
  }

  /**
   * The error text as the source builds it: the body's JSON text after the
   * unknown-response prefix, and the not-found id through `string(id)`,
   * which yields one character rather than the decimal number.
   */
  function MessageAsWritten(e: Error): string
  {
    match e
    case UnknownResponse(raw) => UnknownResponsePrefix + raw
    case NotFound(id) => NotFoundPrefix + RuneText(id)
  }

  /**
   * The error text as intended: the same except that the not-found message
   * names the id in decimal (see the Findings of the README).
   */
  function IntendedMessage(e: Error): string
  {
    match e
    case NotFound(id) => NotFoundPrefix + FormatInt(id)
    case UnknownResponse(_) => MessageAsWritten(e)
  }

  /** The registered name of a code. */
  function Name(t: Table, code: int): string
    requires HasCode(t, code)
  {
    NameOf(t, code).value
  }

  /**
   * The shape the source's type assertions demand: every code it converts
   * to a name is registered in its table (the conversion of unregistered
   * codes is not part of this model).
   */
  predicate WellFormed(w: WireMonitor)
  {
    && HasCode(MonitorTypes, w.typeCode)
    && HasCode(Statuses, w.statusCode)
    && HasCode(HttpMethods, w.httpMethodCode)
    && (Name(MonitorTypes, w.typeCode) == "port" ==> HasCode(SubTypes, w.subTypeCode))
    && (Name(MonitorTypes, w.typeCode) == "keyword" ==> HasCode(KeywordTypes, w.keywordTypeCode))
    && (Name(MonitorTypes, w.typeCode) in {"keyword", "http"} && w.httpAuthTypeCode.Some? ==>
          HasCode(HttpAuthTypes, w.httpAuthTypeCode.value))
  }

  /** The authentication type read for keyword and HTTP monitors. */
  function AuthName(w: WireMonitor): string
    requires WellFormed(w)
  {
    if Name(MonitorTypes, w.typeCode) in {"keyword", "http"} && w.httpAuthTypeCode.Some?
    then Name(HttpAuthTypes, w.httpAuthTypeCode.value)
    else ""
  }

  /**
   * The monitor one wire record describes, with its alert contacts still
   * in wire order.
   */
  function Decoded(id: int, w: WireMonitor): Monitor
    requires WellFormed(w)
  {
    var typeName := Name(MonitorTypes, w.typeCode);
    var methodName := Name(HttpMethods, w.httpMethodCode);
    var subType := if typeName == "port" then Name(SubTypes, w.subTypeCode) else "";
    var authed := typeName in {"keyword", "http"};
    Monitor(
      id := id,
      friendlyName := w.friendlyName,
      url := w.url,
      monitorType := typeName,
      status := Name(Statuses, w.statusCode),
      interval := w.interval,
      subType := subType,
      port := if typeName == "port" && subType == "custom" then w.port else 0,
      keywordType := if typeName == "keyword" then Name(KeywordTypes, w.keywordTypeCode) else "",
      keywordValue := if typeName == "keyword" then w.keywordValue else "",
      httpUsername := if authed then w.httpUsername else "",
      httpPassword := if authed then w.httpPassword else "",
      httpAuthType := AuthName(w),
      ignoreSslErrors := w.sslIgnoreErrors == 1,
      customHttpHeaders := w.customHttpHeaders,
      alertContacts := w.alertContacts,
      httpMethod := methodName,
      postType := "",
      postContentType := "",
      postValue := if methodName == "POST" then w.postValue else map[])
  }

  /** Copies a JSON object of strings entry by entry. */
  method CopyStrings(src: map<string, string>) returns (dst: map<string, string>)
    ensures dst == src
  {
    dst := map[];
    var rest := src.Keys;
    while rest != {}
      invariant rest <= src.Keys
      invariant dst.Keys == src.Keys - rest
      invariant forall k :: k in dst ==> dst[k] == src[k]
      decreases |rest|
    {
      var k :| k in rest;
      dst := dst[k := src[k]];
      rest := rest - {k};
    }
    assert dst.Keys == src.Keys;
  }

  /** Reads the alert contacts into a fresh array and sorts it by ID. */
  method ReadContacts(cs: seq<AlertContact>) returns (sorted: seq<AlertContact>)
    ensures SortedById(sorted)
    ensures multiset(sorted) == multiset(cs)
  {
    var a := new AlertContact[|cs|];
    for k := 0 to |cs|
      invariant forall j :: 0 <= j < k ==> a[j] == cs[j]
    {
      a[k] := cs[k];
    }
    assert a[..] == cs;
    SortById(a);
    sorted := a[..];
  }

  /**
   * The fields every monitor type carries: identity, name, address, type,
   * status, interval and HTTP method, on top of the zero monitor.
   */
  method ReadCommonFields(id: int, w: WireMonitor) returns (m: Monitor)
    requires WellFormed(w)
    ensures var d := Decoded(id, w);
      m == ZeroMonitor.(id := id, friendlyName := d.friendlyName, url := d.url,
                        monitorType := d.monitorType, status := d.status,
                        interval := d.interval, httpMethod := d.httpMethod)
  {
    m := ZeroMonitor;
    m := m.(id := id);
    m := m.(friendlyName := w.friendlyName);
    m := m.(url := w.url);
    m := m.(monitorType := Name(MonitorTypes, w.typeCode));
    m := m.(status := Name(Statuses, w.statusCode));
    m := m.(interval := w.interval);
    m := m.(httpMethod := Name(HttpMethods, w.httpMethodCode));
  }

  /**
   * The type-specific fields: sub-type and port for port monitors, the
   * keyword for keyword monitors, and the credentials for keyword and HTTP
   * monitors. Other fields keep their zero values.
   */
  method ReadTypeFields(w: WireMonitor, m0: Monitor) returns (m: Monitor)
    requires WellFormed(w)
    requires m0.monitorType == Name(MonitorTypes, w.typeCode)
    requires m0.subType == m0.keywordType == m0.keywordValue == m0.httpAuthType == ""
    requires m0.httpUsername == m0.httpPassword == "" && m0.port == 0
    ensures var d := Decoded(m0.id, w);
      m == m0.(subType := d.subType, port := d.port, keywordType := d.keywordType,
               keywordValue := d.keywordValue, httpAuthType := d.httpAuthType,
               httpUsername := d.httpUsername, httpPassword := d.httpPassword)
  {
    ghost var d := Decoded(m0.id, w);
    m := m0;
    if m.monitorType == "port" {
      m := m.(subType := Name(SubTypes, w.subTypeCode));
      if m.subType != "custom" {
        m := m.(port := 0);
      } else {
        m := m.(port := w.port);
      }
      assert d.keywordType == d.keywordValue == d.httpAuthType == "";
      assert d.httpUsername == d.httpPassword == "";
    } else if m.monitorType == "keyword" {
      m := m.(keywordType := Name(KeywordTypes, w.keywordTypeCode));
      m := m.(keywordValue := w.keywordValue);
      if w.httpAuthTypeCode.Some? {
        m := m.(httpAuthType := Name(HttpAuthTypes, w.httpAuthTypeCode.value));
      }
      m := m.(httpUsername := w.httpUsername);
      m := m.(httpPassword := w.httpPassword);
      assert d.subType == "" && d.port == 0;
    } else if m.monitorType == "http" {
      if w.httpAuthTypeCode.Some? {
        m := m.(httpAuthType := Name(HttpAuthTypes, w.httpAuthTypeCode.value));
      }
      m := m.(httpUsername := w.httpUsername);
      m := m.(httpPassword := w.httpPassword);
      assert d.subType == d.keywordType == d.keywordValue == "" && d.port == 0;
    } else {
      assert d.subType == d.keywordType == d.keywordValue == d.httpAuthType == "";
      assert d.httpUsername == d.httpPassword == "" && d.port == 0;
    }
  }

  /**
   * The POST body (kept only for POST monitors), the SSL flag (set exactly
   * when the wire says 1) and the custom headers.
   */
  method ReadOptions(w: WireMonitor, m0: Monitor) returns (m: Monitor)
    ensures m == m0.(postValue := if m0.httpMethod == "POST" then w.postValue else m0.postValue,
                     ignoreSslErrors := w.sslIgnoreErrors == 1,
                     customHttpHeaders := w.customHttpHeaders)
  {
    m := m0;
    if m.httpMethod == "POST" {
      var postValue := CopyStrings(w.postValue);
      m := m.(postValue := postValue);
    }

    if w.sslIgnoreErrors == 1 {
      m := m.(ignoreSslErrors := true);
    } else {
      m := m.(ignoreSslErrors := false);
    }

    var headers := CopyStrings(w.customHttpHeaders);
    m := m.(customHttpHeaders := headers);
  }

  /**
   * Fetches nothing: decodes the answer of "getMonitors" for `id`. A body
   * without a monitors list and an empty list are the two error exits;
   * otherwise the first record is decoded.
   */
  method GetMonitor(id: int, resp: Response) returns (r: Result<Monitor, Error>)
    requires resp.monitors.Some? && |resp.monitors.value| > 0 ==> WellFormed(resp.monitors.value[0])
    ensures resp.monitors.None? ==> r == Failure(UnknownResponse(resp.raw))
    ensures resp.monitors == Some([]) ==> r == Failure(NotFound(id))
    ensures resp.monitors.Some? && |resp.monitors.value| > 0 ==>
      var w := resp.monitors.value[0];
      && r.Success?
      && r.value.(alertContacts := w.alertContacts) == Decoded(id, w)
      && SortedById(r.value.alertContacts)
      && multiset(r.value.alertContacts) == multiset(w.alertContacts)
  {
    if resp.monitors.None? {
      return Failure(UnknownResponse(resp.raw));
    }
    var monitors := resp.monitors.value;
    if |monitors| < 1 {
      return Failure(NotFound(id));
    }
    var w := monitors[0];
    var m := ReadCommonFields(id, w);
    m := ReadTypeFields(w, m);
    m := ReadOptions(w, m);
    var contacts := ReadContacts(w.alertContacts);
    m := m.(alertContacts := contacts);
    return Success(m);
  }
}
