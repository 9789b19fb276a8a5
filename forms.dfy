/**
 * The form body sent to the service, before URL encoding: the (key, value)
 * pairs in the order of the `url.Values.Add` calls that add them. Keys are a closed
 * set whose wire spelling WireName gives exactly; a value is plain text or a
 * string map that `json.Marshal` renders as a JSON object.
 */
module Forms {
  import opened Wrappers

  datatype Key =
    | Id | FriendlyName | Url | Type | Interval | HttpMethod
    | SubType | Port | KeywordType | KeywordValue
    | HttpAuthType | HttpUsername | HttpPassword
    | PostType | PostContentType | PostValue
    | IgnoreSslErrors | AlertContacts | CustomHttpHeaders
    | Monitors | Ssl | HttpRequestDetails | AuthType

  function WireName(k: Key): string
  {
    match k
    case Id => "id"
    case FriendlyName => "friendly_name"
    case Url => "url"
    case Type => "type"
    case Interval => "interval"
    case HttpMethod => "http_method"
    case SubType => "sub_type"
    case Port => "port"
    case KeywordType => "keyword_type"
    case KeywordValue => "keyword_value"
    case HttpAuthType => "http_auth_type"
    case HttpUsername => "http_username"
    case HttpPassword => "http_password"
    case PostType => "post_type"
    case PostContentType => "post_content_type"
    case PostValue => "post_value"
    case IgnoreSslErrors => "ignore_ssl_errors"
    case AlertContacts => "alert_contacts"
    case CustomHttpHeaders => "custom_http_headers"
    case Monitors => "monitors"
    case Ssl => "ssl"
    case HttpRequestDetails => "http_request_details"
    case AuthType => "auth_type"
  }

  /** The key a wire name stands for, if any. */
  function KeyOfName(s: string): (r: Option<Key>)
  {
    if |s| == 2 then
      if s == "id" then Some(Id)
      else None
    else if |s| == 3 then
      if s == "url" then Some(Url)
      else if s == "ssl" then Some(Ssl)
      else None
    else if |s| == 4 then
      if s == "type" then Some(Type)
      else if s == "port" then Some(Port)
      else None
    else if |s| == 8 then
      if s == "interval" then Some(Interval)
      else if s == "sub_type" then Some(SubType)
      else if s == "monitors" then Some(Monitors)
      else None
    else if |s| == 9 then
      if s == "post_type" then Some(PostType)
      else if s == "auth_type" then Some(AuthType)
      else None
    else if |s| == 10 then
      if s == "post_value" then Some(PostValue)
      else None
    else if |s| == 11 then
      if s == "http_method" then Some(HttpMethod)
      else None
    else if |s| == 12 then
      if s == "keyword_type" then Some(KeywordType)
      else None
    else if |s| == 13 then
      if s == "friendly_name" then Some(FriendlyName)
      else if s == "keyword_value" then Some(KeywordValue)
      else if s == "http_username" then Some(HttpUsername)
      else if s == "http_password" then Some(HttpPassword)
      else None
    else if |s| == 14 then
      if s == "http_auth_type" then Some(HttpAuthType)
      else if s == "alert_contacts" then Some(AlertContacts)
      else None
    else if |s| == 17 then
      if s == "post_content_type" then Some(PostContentType)
      else if s == "ignore_ssl_errors" then Some(IgnoreSslErrors)
      else None
    else if |s| == 19 then
      if s == "custom_http_headers" then Some(CustomHttpHeaders)
      else None
    else if |s| == 20 then
      if s == "http_request_details" then Some(HttpRequestDetails)
      else None
    else None
  }

  /** Every wire name reads back as its key, so no two keys share a wire name. */
  lemma WireNameRoundTrip(k: Key)
    ensures KeyOfName(WireName(k)) == Some(k)
  {
    if Rank(k) < 8 {
      WireNameRoundTripLow(k);
    } else if Rank(k) < 16 {
      WireNameRoundTripMid(k);
    } else {
      WireNameRoundTripHigh(k);
    }
  }

  lemma WireNameRoundTripLow(k: Key)
    requires Rank(k) < 8
    ensures KeyOfName(WireName(k)) == Some(k)
  {
    match k
    case Id =>
    case FriendlyName =>
    case Url =>
    case Type =>
    case Interval =>
    case HttpMethod =>
    case SubType =>
    case Port =>
    case _ =>
  }

  lemma WireNameRoundTripMid(k: Key)
    requires 8 <= Rank(k) < 16
    ensures KeyOfName(WireName(k)) == Some(k)
  {
    match k
    case KeywordType =>
    case KeywordValue =>
    case HttpAuthType =>
    case HttpUsername =>
    case HttpPassword =>
    case PostType =>
    case PostContentType =>
    case PostValue =>
    case _ =>
  }

  lemma WireNameRoundTripHigh(k: Key)
    requires 16 <= Rank(k)
    ensures KeyOfName(WireName(k)) == Some(k)
  {
    match k
    case IgnoreSslErrors =>
    case AlertContacts =>
    case CustomHttpHeaders =>
    case Monitors =>
    case Ssl =>
    case HttpRequestDetails =>
    case AuthType =>
    case _ =>
  }

  lemma WireNamesDistinct(k1: Key, k2: Key)
    ensures WireName(k1) == WireName(k2) <==> k1 == k2
  {
    WireNameRoundTrip(k1);
    WireNameRoundTrip(k2);
  }

  datatype Value = Text(s: string) | Json(fields: map<string, string>)

  type Form = seq<(Key, Value)>

  /** The keys of a form, in order. */
  function Keys(form: Form): seq<Key>
  {
    seq(|form|, i requires 0 <= i < |form| => form[i].0)
  }

  /** The value of the first entry under `k`, as `url.Values.Get` answers. */
  function Get(form: Form, k: Key): (r: Option<Value>)
    ensures r.None? <==> k !in Keys(form)
    decreases |form|
  {
    if |form| == 0 then None
    else if form[0].0 == k then
      assert Keys(form)[0] == k;
      Some(form[0].1)
    else
      assert Keys(form) == [form[0].0] + Keys(form[1..]);
      Get(form[1..], k)
  }

  lemma {:induction false} GetAppend(a: Form, b: Form, k: Key)
    ensures Get(a + b, k) == if k in Keys(a) then Get(a, k) else Get(b, k)
    decreases |a|
  {
    if |a| > 0 {
      assert (a + b)[1..] == a[1..] + b;
      assert Keys(a) == [a[0].0] + Keys(a[1..]);
      GetAppend(a[1..], b, k);
    } else {
      assert a + b == b;
    }
  }

  /** A form's first entry answers for its key. */
  lemma GetHead(k: Key, v: Value, rest: Form)
    ensures Get([(k, v)] + rest, k) == Some(v)
  {
  }

  /**
   * Behind a first entry, a key other than the first one is answered by
   * the middle part when it has it, by the tail otherwise.
   */
  lemma GetBehind(k0: Key, v0: Value, mid: Form, tail: Form, k: Key)
    requires k != k0
    ensures Get([(k0, v0)] + (mid + tail), k) == Get(mid + tail, k)
  {
    assert ([(k0, v0)] + (mid + tail))[1..] == mid + tail;
  }

  /** The keys of a form with a first entry and two further parts. */
  lemma KeysBehind(k0: Key, v0: Value, mid: Form, tail: Form, k: Key)
    ensures k in Keys([(k0, v0)] + (mid + tail)) <==> k == k0 || k in Keys(mid) || k in Keys(tail)
  {
    KeysAppend([(k0, v0)], mid + tail);
    KeysAppend(mid, tail);
    assert Keys([(k0, v0)]) == [k0];
  }

  lemma KeysPrefixed(k0: Key, v0: Value, mid: Form, tail: Form)
    ensures Keys([(k0, v0)] + (mid + tail)) == [k0] + Keys(mid) + Keys(tail)
  {
    KeysAppend([(k0, v0)], mid + tail);
    KeysAppend(mid, tail);
    assert Keys([(k0, v0)]) == [k0];
  }

  /**
   * A form with an extra first entry and another tail agrees with the
   * shorter form on every key that is neither the first one nor in a tail.
   */
  lemma GetSharedPart(k0: Key, v0: Value, mid: Form, tail1: Form, tail2: Form, k: Key)
    requires k != k0 && k !in Keys(tail1) && k !in Keys(tail2)
    ensures Get([(k0, v0)] + (mid + tail1), k) == Get(mid + tail2, k)
  {
    GetBehind(k0, v0, mid, tail1, k);
    GetAppend(mid, tail1, k);
    GetAppend(mid, tail2, k);
  }

  /** No key occurs twice. */
  predicate KeysDistinct(form: Form)
  {
    forall i, j :: 0 <= i < j < |form| ==> form[i].0 != form[j].0
  }

  lemma KeysAppend(a: Form, b: Form)
    ensures Keys(a + b) == Keys(a) + Keys(b)
  {
  }

  /** The position of a key in the canonical field order of the service's forms. */
  function Rank(k: Key): nat
  {
    match k
    case Id => 0
    case FriendlyName => 1
    case Url => 2
    case Type => 3
    case Interval => 4
    case HttpMethod => 5
    case SubType => 6
    case Port => 7
    case KeywordType => 8
    case KeywordValue => 9
    case HttpAuthType => 10
    case HttpUsername => 11
    case HttpPassword => 12
    case PostType => 13
    case PostContentType => 14
    case PostValue => 15
    case IgnoreSslErrors => 16
    case AlertContacts => 17
    case CustomHttpHeaders => 18
    case Monitors => 19
    case Ssl => 20
    case HttpRequestDetails => 21
    case AuthType => 22
  }

  /** The entries appear in canonical order, so in particular no key twice. */
  predicate Ordered(form: Form)
  {
    forall i, j :: 0 <= i < j < |form| ==> Rank(form[i].0) < Rank(form[j].0)
  }

  /** Every entry's rank lies in [lo, hi). */
  predicate InBand(form: Form, lo: nat, hi: nat)
  {
    forall i :: 0 <= i < |form| ==> lo <= Rank(form[i].0) < hi
  }

  /** Order follows from each entry ranking below the next. */
  lemma {:induction false} OrderedOfAdjacent(f: Form, lo: nat, hi: nat)
    requires forall i :: 0 <= i < |f| - 1 ==> Rank(f[i].0) < Rank(f[i + 1].0)
    requires |f| > 0 ==> lo <= Rank(f[0].0) && Rank(f[|f| - 1].0) < hi
    ensures Ordered(f) && InBand(f, lo, hi)
    decreases |f|
  {
    if |f| > 1 {
      var g := f[1..];
      forall i | 0 <= i < |g| - 1
        ensures Rank(g[i].0) < Rank(g[i + 1].0)
      {
        assert g[i] == f[i + 1] && g[i + 1] == f[i + 2];
      }
      OrderedOfAdjacent(g, Rank(f[1].0), hi);
      assert forall j :: 1 <= j < |f| ==> f[j] == g[j - 1];
    }
  }

  /*
   * Literal forms of two, three and five entries in rank order. The values
   * are parameters, so proving order never looks at what they hold.
   */

  lemma OrderedTwo(k1: Key, v1: Value, k2: Key, v2: Value, lo: nat, hi: nat)
    requires lo <= Rank(k1) < Rank(k2) < hi
    ensures Ordered([(k1, v1), (k2, v2)]) && InBand([(k1, v1), (k2, v2)], lo, hi)
  {
    OrderedOfAdjacent([(k1, v1), (k2, v2)], lo, hi);
  }

  lemma OrderedThree(k1: Key, v1: Value, k2: Key, v2: Value, k3: Key, v3: Value, lo: nat, hi: nat)
    requires lo <= Rank(k1) < Rank(k2) < Rank(k3) < hi
    ensures Ordered([(k1, v1), (k2, v2), (k3, v3)]) && InBand([(k1, v1), (k2, v2), (k3, v3)], lo, hi)
  {
    OrderedOfAdjacent([(k1, v1), (k2, v2), (k3, v3)], lo, hi);
  }

  lemma OrderedFive(k1: Key, v1: Value, k2: Key, v2: Value, k3: Key, v3: Value,
                    k4: Key, v4: Value, k5: Key, v5: Value, lo: nat, hi: nat)
    requires lo <= Rank(k1) < Rank(k2) < Rank(k3) < Rank(k4) < Rank(k5) < hi
    ensures var f := [(k1, v1), (k2, v2), (k3, v3), (k4, v4), (k5, v5)];
      Ordered(f) && InBand(f, lo, hi)
  {
    OrderedOfAdjacent([(k1, v1), (k2, v2), (k3, v3), (k4, v4), (k5, v5)], lo, hi);
  }

  lemma OrderedDistinct(form: Form)
    requires Ordered(form)
    ensures KeysDistinct(form)
  {
  }

  lemma OrderedAppend(a: Form, b: Form, lo: nat, mid: nat, hi: nat)
    requires lo <= mid <= hi
    requires Ordered(a) && InBand(a, lo, mid)
    requires Ordered(b) && InBand(b, mid, hi)
    ensures Ordered(a + b) && InBand(a + b, lo, hi)
  {
  }

  /** In an ordered form the first entry under a key is its only one. */
  lemma {:induction false} GetMember(form: Form, k: Key, v: Value)
    requires Ordered(form) && (k, v) in form
    ensures Get(form, k) == Some(v)
    decreases |form|
  {
    if form[0] != (k, v) {
      var i :| 0 <= i < |form| && form[i] == (k, v);
      assert i > 0 && Rank(form[0].0) < Rank(k);
      assert form[1..][i - 1] == (k, v);
      GetMember(form[1..], k, v);
    }
  }

  /** In a form without repeated keys, each entry is what its key reads. */
  lemma {:induction false} GetDistinct(form: Form, i: nat)
    requires KeysDistinct(form) && i < |form|
    ensures Get(form, form[i].0) == Some(form[i].1)
    decreases i
  {
    if i > 0 {
      assert form[0].0 != form[i].0;
      assert form[1..][i - 1] == form[i];
      GetDistinct(form[1..], i - 1);
    }
  }
}
