/**
 * The write path of the mapper (`CreateMonitor`, `UpdateMonitor`): a
 * request becomes the form body of a "newMonitor" or "editMonitor"
 * call. Which keys appear depends on the monitor type and the HTTP method;
 * enumeration names are sent as their decimal codes (0 for an unknown
 * name); the alert contacts are one `id_threshold_recurrence` token per
 * binding, joined with '-'.
 */
module Encoder {
  import opened Wrappers
  import opened Decimal
  import opened Strings
  import opened Enums
  import opened Monitors
  import opened Forms

  /** `fmt.Sprintf("%d", table[name])`. */
  function CodeText(t: Table, name: string): string
  {
    FormatInt(CodeOf(t, name))
  }

  /** `fmt.Sprintf("%s_%d_%d", c.ID, c.Threshold, c.Recurrence)`. */
  function ContactToken(c: RequestContact): string
  {
    c.id + "_" + FormatInt(c.threshold) + "_" + FormatInt(c.recurrence)
  }

  /** One token per binding, in order. */
  function ContactTokens(cs: seq<RequestContact>): (ts: seq<string>)
    ensures |ts| == |cs|
    decreases |cs|
  {
    if |cs| == 0 then [] else [ContactToken(cs[0])] + ContactTokens(cs[1..])
  }

  lemma {:induction false} ContactTokenAt(cs: seq<RequestContact>, i: nat)
    requires i < |cs|
    ensures ContactTokens(cs)[i] == ContactToken(cs[i])
    decreases i
  {
    if i > 0 {
      ContactTokenAt(cs[1..], i - 1);
      assert cs[1..][i - 1] == cs[i];
    }
  }

  /** The value of the `alert_contacts` field. */
  function ContactsText(cs: seq<RequestContact>): string
  {
    Join(ContactTokens(cs), '-')
  }

  /** The five fields every create and update sends first. */
  function CoreFields(req: MonitorRequest): Form
  {
    [ (FriendlyName, Text(req.friendlyName)),
      (Url, Text(req.url)),
      (Type, Text(CodeText(MonitorTypes, req.monitorType))),
      (Interval, Text(FormatInt(req.interval))),
      (HttpMethod, Text(CodeText(HttpMethods, req.httpMethod))) ]
  }

  /*
   * The `switch req.Type` block, stated rule by rule: each group of keys
   * has its own condition on the type. AddTypeFields, which follows the
   * switch, is proved to produce exactly these groups.
   */

  /** `sub_type` and `port`, for a port monitor. */
  function PortFields(req: MonitorRequest): Form
  {
    if req.monitorType == "port" then
      [ (SubType, Text(CodeText(SubTypes, req.subType))),
        (Port, Text(FormatInt(req.port))) ]
    else []
  }

  /** `keyword_type` and `keyword_value`, for a keyword monitor. */
  function KeywordFields(req: MonitorRequest): Form
  {
    if req.monitorType == "keyword" then
      [ (KeywordType, Text(CodeText(KeywordTypes, req.keywordType))),
        (KeywordValue, Text(req.keywordValue)) ]
    else []
  }

  /** The HTTP auth fields, for keyword and http monitors. */
  function AuthFields(req: MonitorRequest): Form
  {
    if req.monitorType == "keyword" || req.monitorType == "http" then
      [ (HttpAuthType, Text(CodeText(HttpAuthTypes, req.httpAuthType))),
        (HttpUsername, Text(req.httpUsername)),
        (HttpPassword, Text(req.httpPassword)) ]
    else []
  }

  /** The `switch req.HTTPMethod` block; marshalling a string map cannot fail. */
  function PostFields(req: MonitorRequest): Form
  {
    if req.httpMethod == "POST" then
      [ (PostType, Text(CodeText(PostTypes, req.postType))),
        (PostContentType, Text(CodeText(PostContentTypes, req.postContentType))),
        (PostValue, Json(req.postValue)) ]
    else []
  }

  /** `ignore_ssl_errors` and `alert_contacts`, always sent. */
  function FlagFields(req: MonitorRequest): Form
  {
    [ (IgnoreSslErrors, Text(if req.ignoreSslErrors then "1" else "0")),
      (AlertContacts, Text(ContactsText(req.alertContacts))) ]
  }

  /** Everything from `friendly_name` to `alert_contacts`, common to create and update. */
  function BodyFields(req: MonitorRequest): Form
  {
    CoreFields(req) + PortFields(req) + KeywordFields(req) + AuthFields(req)
    + PostFields(req) + FlagFields(req)
  }

  /** Create's `custom_http_headers`: only for a non-empty map. */
  function CreateHeaderFields(req: MonitorRequest): Form
  {
    if |req.customHttpHeaders| > 0 then [(CustomHttpHeaders, Json(req.customHttpHeaders))] else []
  }

  /** Update's `custom_http_headers`: always, `{}` to clear an empty map. */
  function UpdateHeaderFields(req: MonitorRequest): Form
  {
    [ (CustomHttpHeaders,
       if |req.customHttpHeaders| > 0 then Json(req.customHttpHeaders) else Text("{}")) ]
  }

  /** The body of "newMonitor". */
  function CreateForm(req: MonitorRequest): Form
  {
    BodyFields(req) + CreateHeaderFields(req)
  }

  /** The body of "editMonitor": the id first. */
  function UpdateForm(id: int, req: MonitorRequest): Form
  {
    [(Id, Text(FormatInt(id)))] + (BodyFields(req) + UpdateHeaderFields(req))
  }

  // ---------------------------------------------------------------------
  // The encoder, step by step

  /** Fills `acStrings` one token per contact, then joins them. */
  method FormatContacts(cs: seq<RequestContact>) returns (s: string)
    ensures s == ContactsText(cs)
  {
    var acStrings := new string[|cs|];
    for k := 0 to |cs|
      invariant forall j :: 0 <= j < k ==> acStrings[j] == ContactToken(cs[j])
    {
      var v := cs[k];
      acStrings[k] := v.id + "_" + FormatInt(v.threshold) + "_" + FormatInt(v.recurrence);
    }
    forall j | 0 <= j < |cs| ensures acStrings[j] == ContactTokens(cs)[j] {
      ContactTokenAt(cs, j);
    }
    assert acStrings[..] == ContactTokens(cs);
    s := Join(acStrings[..], '-');
  }

  /** Appends `friendly_name`, `url`, `type`, `interval` and `http_method`. */
  method AddCoreFields(data0: Form, req: MonitorRequest) returns (data: Form)
    ensures data == data0 + CoreFields(req)
  {
    data := data0;
    data := data + [(FriendlyName, Text(req.friendlyName))];
    data := data + [(Url, Text(req.url))];
    data := data + [(Type, Text(FormatInt(CodeOf(MonitorTypes, req.monitorType))))];
    data := data + [(Interval, Text(FormatInt(req.interval)))];
    data := data + [(HttpMethod, Text(FormatInt(CodeOf(HttpMethods, req.httpMethod))))];
  }

  /** Appends the fields the monitor type calls for. */
  method AddTypeFields(data0: Form, req: MonitorRequest) returns (data: Form)
    ensures data == data0 + PortFields(req) + KeywordFields(req) + AuthFields(req)
  {
    data := data0;
    if req.monitorType == "port" {
      data := data + [(SubType, Text(FormatInt(CodeOf(SubTypes, req.subType))))];
      data := data + [(Port, Text(FormatInt(req.port)))];
    } else if req.monitorType == "keyword" {
      data := data + [(KeywordType, Text(FormatInt(CodeOf(KeywordTypes, req.keywordType))))];
      data := data + [(KeywordValue, Text(req.keywordValue))];
      data := data + [(HttpAuthType, Text(FormatInt(CodeOf(HttpAuthTypes, req.httpAuthType))))];
      data := data + [(HttpUsername, Text(req.httpUsername))];
      data := data + [(HttpPassword, Text(req.httpPassword))];
    } else if req.monitorType == "http" {
      data := data + [(HttpAuthType, Text(FormatInt(CodeOf(HttpAuthTypes, req.httpAuthType))))];
      data := data + [(HttpUsername, Text(req.httpUsername))];
      data := data + [(HttpPassword, Text(req.httpPassword))];
    }
  }

  /** Appends the POST body fields when the method is POST. */
  method AddPostFields(data0: Form, req: MonitorRequest) returns (data: Form)
    ensures data == data0 + PostFields(req)
  {
    data := data0;
    if req.httpMethod == "POST" {
      data := data + [(PostType, Text(FormatInt(CodeOf(PostTypes, req.postType))))];
      data := data + [(PostContentType, Text(FormatInt(CodeOf(PostContentTypes, req.postContentType))))];
      data := data + [(PostValue, Json(req.postValue))];
    }
  }

  /** Appends the fields shared by create and update to `data`. */
  method AddBodyFields(data0: Form, req: MonitorRequest) returns (data: Form)
    ensures data == data0 + BodyFields(req)
  {
    data := AddCoreFields(data0, req);
    data := AddTypeFields(data, req);
    data := AddPostFields(data, req);
    var sslText := if req.ignoreSslErrors then "1" else "0";
    data := data + [(IgnoreSslErrors, Text(sslText))];
    var acText := FormatContacts(req.alertContacts);
    data := data + [(AlertContacts, Text(acText))];
    AppendRegroup(data0, CoreFields(req), PortFields(req), KeywordFields(req), AuthFields(req),
                  PostFields(req), FlagFields(req));
  }

  lemma AppendRegroup(a: Form, b: Form, c: Form, d: Form, e: Form, f: Form, g: Form)
    ensures a + (b + c + d + e + f + g) == a + b + c + d + e + f + g
  {
  }

  /** The form `CreateMonitor` sends. */
  method BuildCreateForm(req: MonitorRequest) returns (data: Form)
    ensures data == CreateForm(req)
  {
    data := AddBodyFields([], req);
    assert data == BodyFields(req);
    if |req.customHttpHeaders| > 0 {
      data := data + [(CustomHttpHeaders, Json(req.customHttpHeaders))];
    }
  }

  /** The form `UpdateMonitor` sends. */
  method BuildUpdateForm(id: int, req: MonitorRequest) returns (data: Form)
    ensures data == UpdateForm(id, req)
  {
    var head := [(Id, Text(FormatInt(id)))];
    data := AddBodyFields(head, req);
    if |req.customHttpHeaders| > 0 {
      data := data + [(CustomHttpHeaders, Json(req.customHttpHeaders))];
    } else {
      data := data + [(CustomHttpHeaders, Text("{}"))];
    }
    AppendAssoc(head, BodyFields(req), UpdateHeaderFields(req));
  }

  lemma AppendAssoc(a: Form, b: Form, c: Form)
    ensures a + b + c == a + (b + c)
  {
  }

}
