/**
 * What the create and update forms say: which keys appear under which
 * conditions, what text the enumeration fields carry, and how the two
 * forms differ.
 */
module EncoderProperties {
  import opened Wrappers
  import opened Decimal
  import opened Strings
  import opened Enums
  import opened Monitors
  import opened Forms
  import opened Encoder
  import opened EncoderShape

  // ---------------------------------------------------------------------
  // Which keys are sent

  /**
   * The rule for each key of the create form, stated group by group: the core
   * fields and the two flag fields always; the type-specific keys by the
   * monitor type; the POST keys by the HTTP method; custom headers only
   * when there are some.
   */
  predicate CreateSends(req: MonitorRequest, k: Key)
  {
    || k in {FriendlyName, Url, Type, Interval, HttpMethod}
    || (req.monitorType == "port" && k in {SubType, Port})
    || (req.monitorType == "keyword" && k in {KeywordType, KeywordValue})
    || ((req.monitorType == "keyword" || req.monitorType == "http")
        && k in {HttpAuthType, HttpUsername, HttpPassword})
    || (req.httpMethod == "POST" && k in {PostType, PostContentType, PostValue})
    || k in {IgnoreSslErrors, AlertContacts}
    || (k == CustomHttpHeaders && |req.customHttpHeaders| > 0)
  }

  /** The update form: `id` and `custom_http_headers` always, the rest as create. */
  predicate UpdateSends(req: MonitorRequest, k: Key)
  {
    k == Id || k == CustomHttpHeaders || CreateSends(req, k)
  }

  lemma InKeysAppend(a: Form, b: Form, k: Key)
    ensures k in Keys(a + b) <==> k in Keys(a) || k in Keys(b)
  {
    KeysAppend(a, b);
  }

  lemma InBodyKeys(req: MonitorRequest, k: Key)
    ensures k in Keys(BodyFields(req)) <==>
      k in Keys(CoreFields(req)) || k in Keys(PortFields(req)) || k in Keys(KeywordFields(req))
      || k in Keys(AuthFields(req)) || k in Keys(PostFields(req)) || k in Keys(FlagFields(req))
  {
    KeysChain(CoreFields(req), PortFields(req), KeywordFields(req),
              AuthFields(req), PostFields(req), FlagFields(req));
  }

  /** The rules, read off the six groups' memberships. */
  lemma SendsFromGroups(req: MonitorRequest, k: Key,
                        inBody: bool, inCore: bool, inPort: bool, inKeyword: bool,
                        inAuth: bool, inPost: bool, inFlags: bool)
    requires inBody <==> inCore || inPort || inKeyword || inAuth || inPost || inFlags
    requires inCore <==> k in {FriendlyName, Url, Type, Interval, HttpMethod}
    requires inPort <==> req.monitorType == "port" && k in {SubType, Port}
    requires inKeyword <==> req.monitorType == "keyword" && k in {KeywordType, KeywordValue}
    requires inAuth <==> (req.monitorType == "keyword" || req.monitorType == "http")
                         && k in {HttpAuthType, HttpUsername, HttpPassword}
    requires inPost <==> req.httpMethod == "POST" && k in {PostType, PostContentType, PostValue}
    requires inFlags <==> k in {IgnoreSslErrors, AlertContacts}
    ensures inBody <==> CreateSends(req, k) && k != CustomHttpHeaders
  {
  }

  lemma BodySends(req: MonitorRequest, k: Key)
    ensures k in Keys(BodyFields(req)) <==> CreateSends(req, k) && k != CustomHttpHeaders
  {
    InBodyKeys(req, k);
    CoreFieldsKeys(req, k);
    PortFieldsKeys(req, k);
    KeywordFieldsKeys(req, k);
    AuthFieldsKeys(req, k);
    PostFieldsKeys(req, k);
    FlagFieldsKeys(req, k);
    SendsFromGroups(req, k, k in Keys(BodyFields(req)),
      k in Keys(CoreFields(req)), k in Keys(PortFields(req)), k in Keys(KeywordFields(req)),
      k in Keys(AuthFields(req)), k in Keys(PostFields(req)), k in Keys(FlagFields(req)));
  }

  /** The create form holds exactly the keys the rules call for. */
  lemma CreateSendsExactly(req: MonitorRequest, k: Key)
    ensures k in Keys(CreateForm(req)) <==> CreateSends(req, k)
  {
    InKeysAppend(BodyFields(req), CreateHeaderFields(req), k);
    BodySends(req, k);
    CreateHeaderKeys(req, k);
  }

  /** The update form holds exactly the keys the rules call for. */
  lemma UpdateSendsExactly(id: int, req: MonitorRequest, k: Key)
    ensures k in Keys(UpdateForm(id, req)) <==> UpdateSends(req, k)
  {
    KeysBehind(Id, Text(FormatInt(id)), BodyFields(req), UpdateHeaderFields(req), k);
    UpdateHeaderFieldsShape(req);
    BodySends(req, k);
  }

  // ---------------------------------------------------------------------
  // What the sent keys carry

  /** In the create form, a key carries the value of its (only) entry. */
  lemma GetCreate(req: MonitorRequest, k: Key, v: Value)
    requires (k, v) in BodyFields(req) || (k, v) in CreateHeaderFields(req)
    ensures Get(CreateForm(req), k) == Some(v)
  {
    CreateFormOrdered(req);
    GetMember(CreateForm(req), k, v);
  }

  /** A port monitor sends its port number as decimal text, whatever the sub-type. */
  lemma PortSent(req: MonitorRequest)
    requires req.monitorType == "port"
    ensures Get(CreateForm(req), Port) == Some(Text(FormatInt(req.port)))
  {
    assert (Port, Text(FormatInt(req.port))) in PortFields(req);
    GetCreate(req, Port, Text(FormatInt(req.port)));
  }

  /** A POST monitor sends its POST body map under `post_value`. */
  lemma PostValueSent(req: MonitorRequest)
    requires req.httpMethod == "POST"
    ensures Get(CreateForm(req), PostValue) == Some(Json(req.postValue))
  {
    assert (PostValue, Json(req.postValue)) in PostFields(req);
    GetCreate(req, PostValue, Json(req.postValue));
  }

  /** `ignore_ssl_errors` is "1" exactly when the flag is set, and "0" otherwise. */
  lemma SslFlagSent(req: MonitorRequest)
    ensures Get(CreateForm(req), IgnoreSslErrors) == Some(Text("1")) <==> req.ignoreSslErrors
    ensures Get(CreateForm(req), IgnoreSslErrors) == Some(Text("0")) <==> !req.ignoreSslErrors
  {
    var v := Text(if req.ignoreSslErrors then "1" else "0");
    assert (IgnoreSslErrors, v) in FlagFields(req);
    GetCreate(req, IgnoreSslErrors, v);
  }

  /** `alert_contacts` carries the joined tokens of the bindings, in order. */
  lemma ContactsSent(req: MonitorRequest)
    ensures Get(CreateForm(req), AlertContacts) == Some(Text(ContactsText(req.alertContacts)))
  {
    var v := Text(ContactsText(req.alertContacts));
    assert (AlertContacts, v) in FlagFields(req);
    GetCreate(req, AlertContacts, v);
  }

  /** The text sent for a name looked up in table `t`: "0" for an unknown name, its code otherwise. */
  predicate SendsCode(form: Form, key: Key, t: Table, name: string)
  {
    && (name !in t ==> Get(form, key) == Some(Text("0")))
    && (name in t ==> Get(form, key) == Some(Text(FormatInt(t[name]))))
  }

  lemma CodeSent(req: MonitorRequest, key: Key, t: Table, name: string)
    requires (key, Text(CodeText(t, name))) in BodyFields(req)
    ensures SendsCode(CreateForm(req), key, t, name)
  {
    GetCreate(req, key, Text(CodeText(t, name)));
    assert FormatInt(0) == "0";
  }

  lemma CoreCodesSent(req: MonitorRequest)
    ensures SendsCode(CreateForm(req), Type, MonitorTypes, req.monitorType)
    ensures SendsCode(CreateForm(req), HttpMethod, HttpMethods, req.httpMethod)
  {
    CodeSent(req, Type, MonitorTypes, req.monitorType);
    CodeSent(req, HttpMethod, HttpMethods, req.httpMethod);
  }

  lemma SubTypeCodeSent(req: MonitorRequest)
    requires req.monitorType == "port"
    ensures SendsCode(CreateForm(req), SubType, SubTypes, req.subType)
  {
    assert (SubType, Text(CodeText(SubTypes, req.subType))) in PortFields(req);
    CodeSent(req, SubType, SubTypes, req.subType);
  }

  lemma KeywordTypeCodeSent(req: MonitorRequest)
    requires req.monitorType == "keyword"
    ensures SendsCode(CreateForm(req), KeywordType, KeywordTypes, req.keywordType)
  {
    assert (KeywordType, Text(CodeText(KeywordTypes, req.keywordType))) in KeywordFields(req);
    CodeSent(req, KeywordType, KeywordTypes, req.keywordType);
  }

  lemma AuthTypeCodeSent(req: MonitorRequest)
    requires req.monitorType == "keyword" || req.monitorType == "http"
    ensures SendsCode(CreateForm(req), HttpAuthType, HttpAuthTypes, req.httpAuthType)
  {
    assert (HttpAuthType, Text(CodeText(HttpAuthTypes, req.httpAuthType))) in AuthFields(req);
    CodeSent(req, HttpAuthType, HttpAuthTypes, req.httpAuthType);
  }

  lemma PostCodesSent(req: MonitorRequest)
    requires req.httpMethod == "POST"
    ensures SendsCode(CreateForm(req), PostType, PostTypes, req.postType)
    ensures SendsCode(CreateForm(req), PostContentType, PostContentTypes, req.postContentType)
  {
    assert (PostType, Text(CodeText(PostTypes, req.postType))) in PostFields(req);
    assert (PostContentType, Text(CodeText(PostContentTypes, req.postContentType))) in PostFields(req);
    CodeSent(req, PostType, PostTypes, req.postType);
    CodeSent(req, PostContentType, PostContentTypes, req.postContentType);
  }

  /**
   * Every enumeration-valued field that is sent carries its table's code
   * for the name, and "0" for a name the table does not know.
   */
  lemma NamesSentAsCodes(req: MonitorRequest)
    ensures SendsCode(CreateForm(req), Type, MonitorTypes, req.monitorType)
    ensures SendsCode(CreateForm(req), HttpMethod, HttpMethods, req.httpMethod)
    ensures req.monitorType == "port" ==>
      SendsCode(CreateForm(req), SubType, SubTypes, req.subType)
    ensures req.monitorType == "keyword" ==>
      SendsCode(CreateForm(req), KeywordType, KeywordTypes, req.keywordType)
    ensures req.monitorType == "keyword" || req.monitorType == "http" ==>
      SendsCode(CreateForm(req), HttpAuthType, HttpAuthTypes, req.httpAuthType)
    ensures req.httpMethod == "POST" ==>
      && SendsCode(CreateForm(req), PostType, PostTypes, req.postType)
      && SendsCode(CreateForm(req), PostContentType, PostContentTypes, req.postContentType)
  {
    CoreCodesSent(req);
    if req.monitorType == "port" {
      SubTypeCodeSent(req);
    }
    if req.monitorType == "keyword" {
      KeywordTypeCodeSent(req);
    }
    if req.monitorType == "keyword" || req.monitorType == "http" {
      AuthTypeCodeSent(req);
    }
    if req.httpMethod == "POST" {
      PostCodesSent(req);
    }
  }

  /** Create sends `custom_http_headers` only for a non-empty map, and then that map. */
  lemma CreateHeadersOnlyWhenSet(req: MonitorRequest)
    ensures Get(CreateForm(req), CustomHttpHeaders) ==
      if |req.customHttpHeaders| > 0 then Some(Json(req.customHttpHeaders)) else None
  {
    BodySends(req, CustomHttpHeaders);
    GetAppend(BodyFields(req), CreateHeaderFields(req), CustomHttpHeaders);
  }

  /** Update always sends `custom_http_headers`: the map, or the literal "{}" to clear it. */
  lemma UpdateAlwaysSendsHeaders(id: int, req: MonitorRequest)
    ensures Get(UpdateForm(id, req), CustomHttpHeaders) ==
      Some(if |req.customHttpHeaders| > 0 then Json(req.customHttpHeaders) else Text("{}"))
  {
    var v := if |req.customHttpHeaders| > 0 then Json(req.customHttpHeaders) else Text("{}");
    UpdateFormOrdered(id, req);
    assert (CustomHttpHeaders, v) in UpdateHeaderFields(req);
    GetMember(UpdateForm(id, req), CustomHttpHeaders, v);
  }

  /** Update sends the identifier, as decimal text, under `id`. */
  lemma UpdateSendsId(id: int, req: MonitorRequest)
    ensures Get(UpdateForm(id, req), Id) == Some(Text(FormatInt(id)))
  {
    GetHead(Id, Text(FormatInt(id)), BodyFields(req) + UpdateHeaderFields(req));
  }

  /**
   * Apart from `id` and `custom_http_headers`, every key carries the same
   * value in the update form as in the create form.
   */
  lemma UpdateExtendsCreate(id: int, req: MonitorRequest, k: Key)
    requires k != Id && k != CustomHttpHeaders
    ensures Get(UpdateForm(id, req), k) == Get(CreateForm(req), k)
  {
    HeaderKeysOnly(req, k);
    GetSharedPart(Id, Text(FormatInt(id)), BodyFields(req), UpdateHeaderFields(req),
                  CreateHeaderFields(req), k);
  }

  /**
   * The update form's keys are the create form's with `id` in front, and
   * `custom_http_headers` at the end when create leaves it out.
   */
  lemma UpdateKeysExtendCreate(id: int, req: MonitorRequest)
    ensures Keys(UpdateForm(id, req)) ==
      [Id] + Keys(CreateForm(req)) + (if |req.customHttpHeaders| > 0 then [] else [CustomHttpHeaders])
  {
    KeysPrefixed(Id, Text(FormatInt(id)), BodyFields(req), UpdateHeaderFields(req));
    KeysAppend(BodyFields(req), CreateHeaderFields(req));
    UpdateHeaderFieldsShape(req);
    CreateHeaderFieldsShape(req);
    var late: seq<Key> := if |req.customHttpHeaders| > 0 then [] else [CustomHttpHeaders];
    assert Keys(CreateHeaderFields(req)) + late == [CustomHttpHeaders];
    Regroup(Id, Keys(BodyFields(req)), Keys(CreateHeaderFields(req)), late, CustomHttpHeaders);
  }

  lemma Regroup<T>(a: T, mid: seq<T>, x: seq<T>, y: seq<T>, h: T)
    requires x + y == [h]
    ensures [a] + mid + [h] == [a] + (mid + x) + y
  {
  }
}
