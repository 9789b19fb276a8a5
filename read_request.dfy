/**
 * The request half of `GetMonitor`: the form of the "getMonitors" call
 * that asks for one monitor with its SSL, header, alert-contact, request
 * detail and authentication fields.
 */
module ReadRequest {
  import opened Wrappers
  import opened Decimal
  import opened Forms

  /** The form of the "getMonitors" call for one monitor. */
  method BuildReadForm(id: int) returns (data: Form)
    ensures Keys(data) == [Monitors, Ssl, CustomHttpHeaders, AlertContacts, HttpRequestDetails, AuthType]
    ensures Get(data, Monitors) == Some(Text(FormatInt(id)))
    ensures Get(data, Ssl) == Get(data, CustomHttpHeaders) == Get(data, AlertContacts) == Some(Text("1"))
    ensures Get(data, HttpRequestDetails) == Get(data, AuthType) == Some(Text("true"))
  {
    var one := FormatInt(1);
    assert one == "1";
    var idText := FormatInt(id);
    data := [];
    data := data + [(Monitors, Text(idText))];
    data := data + [(Ssl, Text(one))];
    data := data + [(CustomHttpHeaders, Text(one))];
    data := data + [(AlertContacts, Text(one))];
    data := data + [(HttpRequestDetails, Text("true"))];
    data := data + [(AuthType, Text("true"))];
    assert data == [(Monitors, Text(idText)), (Ssl, Text(one)), (CustomHttpHeaders, Text(one)),
                    (AlertContacts, Text(one)), (HttpRequestDetails, Text("true")), (AuthType, Text("true"))];
    ReadFormGets(Text(idText), Text(one), Text("true"));
    ReadFormKeys(Text(idText), Text(one), Text("true"));
  }

  lemma ReadFormGets(a: Value, b: Value, c: Value)
    ensures var data := [(Monitors, a), (Ssl, b), (CustomHttpHeaders, b), (AlertContacts, b),
                         (HttpRequestDetails, c), (AuthType, c)];
      && Get(data, Monitors) == Some(a)
      && Get(data, Ssl) == Get(data, CustomHttpHeaders) == Get(data, AlertContacts) == Some(b)
      && Get(data, HttpRequestDetails) == Get(data, AuthType) == Some(c)
  {
    var data := [(Monitors, a), (Ssl, b), (CustomHttpHeaders, b), (AlertContacts, b),
                 (HttpRequestDetails, c), (AuthType, c)];
    assert KeysDistinct(data);
    GetDistinct(data, 0);
    GetDistinct(data, 1);
    GetDistinct(data, 2);
    GetDistinct(data, 3);
    GetDistinct(data, 4);
    GetDistinct(data, 5);
  }

  lemma ReadFormKeys(a: Value, b: Value, c: Value)
    ensures var data := [(Monitors, a), (Ssl, b), (CustomHttpHeaders, b), (AlertContacts, b),
                         (HttpRequestDetails, c), (AuthType, c)];
      Keys(data) == [Monitors, Ssl, CustomHttpHeaders, AlertContacts, HttpRequestDetails, AuthType]
  {
  }
}
