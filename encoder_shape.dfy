/**
 * The shape of the create and update forms: each group of fields carries
 * fixed keys in canonical order, so the whole form is ordered and no key
 * appears twice.
 */
module EncoderShape {
  import opened Wrappers
  import opened Decimal
  import opened Strings
  import opened Enums
  import opened Monitors
  import opened Forms
  import opened Encoder

  // ---------------------------------------------------------------------
  // Shape of each group of fields: its keys, in canonical order

  lemma CoreFieldsShape(req: MonitorRequest)
    ensures Ordered(CoreFields(req)) && InBand(CoreFields(req), 1, 6)
  {
    OrderedFive(FriendlyName, Text(req.friendlyName), Url, Text(req.url),
                Type, Text(CodeText(MonitorTypes, req.monitorType)),
                Interval, Text(FormatInt(req.interval)),
                HttpMethod, Text(CodeText(HttpMethods, req.httpMethod)), 1, 6);
  }

  lemma PortFieldsShape(req: MonitorRequest)
    ensures Ordered(PortFields(req)) && InBand(PortFields(req), 6, 8)
  {
    if req.monitorType == "port" {
      OrderedTwo(SubType, Text(CodeText(SubTypes, req.subType)),
                 Port, Text(FormatInt(req.port)), 6, 8);
    }
  }

  lemma KeywordFieldsShape(req: MonitorRequest)
    ensures Ordered(KeywordFields(req)) && InBand(KeywordFields(req), 8, 10)
  {
    if req.monitorType == "keyword" {
      OrderedTwo(KeywordType, Text(CodeText(KeywordTypes, req.keywordType)),
                 KeywordValue, Text(req.keywordValue), 8, 10);
    }
  }

  lemma AuthFieldsShape(req: MonitorRequest)
    ensures Ordered(AuthFields(req)) && InBand(AuthFields(req), 10, 13)
  {
    if req.monitorType == "keyword" || req.monitorType == "http" {
      OrderedThree(HttpAuthType, Text(CodeText(HttpAuthTypes, req.httpAuthType)),
                   HttpUsername, Text(req.httpUsername),
                   HttpPassword, Text(req.httpPassword), 10, 13);
    }
  }

  lemma PostFieldsShape(req: MonitorRequest)
    ensures Ordered(PostFields(req)) && InBand(PostFields(req), 13, 16)
  {
    if req.httpMethod == "POST" {
      OrderedThree(PostType, Text(CodeText(PostTypes, req.postType)),
                   PostContentType, Text(CodeText(PostContentTypes, req.postContentType)),
                   PostValue, Json(req.postValue), 13, 16);
    }
  }

  lemma FlagFieldsShape(req: MonitorRequest)
    ensures Ordered(FlagFields(req)) && InBand(FlagFields(req), 16, 18)
  {
    OrderedTwo(IgnoreSslErrors, Text(if req.ignoreSslErrors then "1" else "0"),
               AlertContacts, Text(ContactsText(req.alertContacts)), 16, 18);
  }

  lemma CoreFieldsKeys(req: MonitorRequest, k: Key)
    ensures k in Keys(CoreFields(req)) <==> k in {FriendlyName, Url, Type, Interval, HttpMethod}
  {
    assert Keys(CoreFields(req)) == [FriendlyName, Url, Type, Interval, HttpMethod];
  }

  lemma PortFieldsKeys(req: MonitorRequest, k: Key)
    ensures k in Keys(PortFields(req)) <==> req.monitorType == "port" && k in {SubType, Port}
  {
    if req.monitorType == "port" {
      assert Keys(PortFields(req)) == [SubType, Port];
    }
  }

  lemma KeywordFieldsKeys(req: MonitorRequest, k: Key)
    ensures k in Keys(KeywordFields(req)) <==>
      req.monitorType == "keyword" && k in {KeywordType, KeywordValue}
  {
    if req.monitorType == "keyword" {
      assert Keys(KeywordFields(req)) == [KeywordType, KeywordValue];
    }
  }

  lemma AuthFieldsKeys(req: MonitorRequest, k: Key)
    ensures k in Keys(AuthFields(req)) <==>
      (req.monitorType == "keyword" || req.monitorType == "http")
      && k in {HttpAuthType, HttpUsername, HttpPassword}
  {
    if req.monitorType == "keyword" || req.monitorType == "http" {
      assert Keys(AuthFields(req)) == [HttpAuthType, HttpUsername, HttpPassword];
    }
  }

  lemma PostFieldsKeys(req: MonitorRequest, k: Key)
    ensures k in Keys(PostFields(req)) <==>
      req.httpMethod == "POST" && k in {PostType, PostContentType, PostValue}
  {
    if req.httpMethod == "POST" {
      assert Keys(PostFields(req)) == [PostType, PostContentType, PostValue];
    }
  }

  lemma FlagFieldsKeys(req: MonitorRequest, k: Key)
    ensures k in Keys(FlagFields(req)) <==> k in {IgnoreSslErrors, AlertContacts}
  {
    assert Keys(FlagFields(req)) == [IgnoreSslErrors, AlertContacts];
  }

  /** Six groups in consecutive rank bands make one ordered form. */
  lemma OrderedChain(a: Form, b: Form, c: Form, d: Form, e: Form, f: Form)
    requires Ordered(a) && InBand(a, 1, 6)
    requires Ordered(b) && InBand(b, 6, 8)
    requires Ordered(c) && InBand(c, 8, 10)
    requires Ordered(d) && InBand(d, 10, 13)
    requires Ordered(e) && InBand(e, 13, 16)
    requires Ordered(f) && InBand(f, 16, 18)
    ensures Ordered(a + b + c + d + e + f) && InBand(a + b + c + d + e + f, 1, 18)
  {
    OrderedAppend(a, b, 1, 6, 8);
    OrderedAppend(a + b, c, 1, 8, 10);
    OrderedAppend(a + b + c, d, 1, 10, 13);
    OrderedAppend(a + b + c + d, e, 1, 13, 16);
    OrderedAppend(a + b + c + d + e, f, 1, 16, 18);
  }

  lemma KeysChain(a: Form, b: Form, c: Form, d: Form, e: Form, f: Form)
    ensures Keys(a + b + c + d + e + f) ==
      Keys(a) + Keys(b) + Keys(c) + Keys(d) + Keys(e) + Keys(f)
  {
    KeysAppend(a, b);
    KeysAppend(a + b, c);
    KeysAppend(a + b + c, d);
    KeysAppend(a + b + c + d, e);
    KeysAppend(a + b + c + d + e, f);
  }

  lemma BodyFieldsShape(req: MonitorRequest)
    ensures Ordered(BodyFields(req)) && InBand(BodyFields(req), 1, 18)
  {
    CoreFieldsShape(req);
    PortFieldsShape(req);
    KeywordFieldsShape(req);
    AuthFieldsShape(req);
    PostFieldsShape(req);
    FlagFieldsShape(req);
    OrderedChain(CoreFields(req), PortFields(req), KeywordFields(req),
                 AuthFields(req), PostFields(req), FlagFields(req));
  }

  lemma CreateHeaderFieldsShape(req: MonitorRequest)
    ensures Ordered(CreateHeaderFields(req)) && InBand(CreateHeaderFields(req), 18, 19)
    ensures Keys(CreateHeaderFields(req)) ==
      if |req.customHttpHeaders| > 0 then [CustomHttpHeaders] else []
  {
  }

  lemma UpdateHeaderFieldsShape(req: MonitorRequest)
    ensures Ordered(UpdateHeaderFields(req)) && InBand(UpdateHeaderFields(req), 18, 19)
    ensures Keys(UpdateHeaderFields(req)) == [CustomHttpHeaders]
  {
  }

  lemma CreateHeaderKeys(req: MonitorRequest, k: Key)
    ensures k in Keys(CreateHeaderFields(req)) <==>
      k == CustomHttpHeaders && |req.customHttpHeaders| > 0
  {
    CreateHeaderFieldsShape(req);
  }

  /** Only `custom_http_headers` comes after the body, in either form. */
  lemma HeaderKeysOnly(req: MonitorRequest, k: Key)
    requires k != CustomHttpHeaders
    ensures k !in Keys(UpdateHeaderFields(req)) && k !in Keys(CreateHeaderFields(req))
  {
    UpdateHeaderFieldsShape(req);
    CreateHeaderFieldsShape(req);
  }

  /** The create form adds its fields in the canonical order, so each key at most once. */
  lemma CreateFormOrdered(req: MonitorRequest)
    ensures Ordered(CreateForm(req)) && KeysDistinct(CreateForm(req))
  {
    BodyFieldsShape(req);
    CreateHeaderFieldsShape(req);
    OrderedAppend(BodyFields(req), CreateHeaderFields(req), 1, 18, 19);
    OrderedDistinct(CreateForm(req));
  }

  /** The update form adds its fields in the canonical order, so each key at most once. */
  lemma UpdateFormOrdered(id: int, req: MonitorRequest)
    ensures Ordered(UpdateForm(id, req)) && KeysDistinct(UpdateForm(id, req))
  {
    var head := [(Id, Text(FormatInt(id)))];
    assert Ordered(head) && InBand(head, 0, 1);
    BodyFieldsShape(req);
    UpdateHeaderFieldsShape(req);
    OrderedAppend(BodyFields(req), UpdateHeaderFields(req), 1, 18, 19);
    OrderedAppend(head, BodyFields(req) + UpdateHeaderFields(req), 0, 1, 19);
    OrderedDistinct(UpdateForm(id, req));
  }
}
