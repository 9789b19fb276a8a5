/**
 * What a decoded monitor says about the wire record it came from: which
 * fields each type carries, how the port, POST body and SSL flag are read,
 * that every name decodes back to its wire code (so writing a read-back
 * monitor sends the codes it was read with), the order of the alert
 * contacts, and the text of the not-found error.
 */
module DecoderProperties {
  import opened Wrappers
  import opened Decimal
  import opened Strings
  import opened Enums
  import opened Monitors
  import opened Forms
  import opened Encoder
  import opened EncoderProperties
  import opened ContactSort
  import opened Decoder

  // ---------------------------------------------------------------------
  // Type-specific fields

  /** In a table without the empty name, every decoded name is non-empty. */
  lemma NamesNonEmpty(t: Table, code: int)
    requires HasCode(t, code) && "" !in t
    ensures Name(t, code) != ""
  {
  }

  /** A port is kept only for a port monitor with the "custom" sub-type. */
  lemma PortDecoding(id: int, w: WireMonitor)
    requires WellFormed(w)
    ensures var m := Decoded(id, w);
      && (m.monitorType == "port" && m.subType == "custom" ==> m.port == w.port)
      && (m.port != 0 ==> m.monitorType == "port" && m.subType == "custom")
      && (m.subType != "" <==> m.monitorType == "port")
  {
    if Name(MonitorTypes, w.typeCode) == "port" {
      NamesNonEmpty(SubTypes, w.subTypeCode);
    }
  }

  /** Keyword fields are read exactly for keyword monitors. */
  lemma KeywordDecoding(id: int, w: WireMonitor)
    requires WellFormed(w)
    ensures var m := Decoded(id, w);
      && (m.keywordType != "" <==> m.monitorType == "keyword")
      && (m.monitorType == "keyword" ==> m.keywordValue == w.keywordValue)
      && (m.monitorType != "keyword" ==> m.keywordValue == "")
  {
    if Name(MonitorTypes, w.typeCode) == "keyword" {
      NamesNonEmpty(KeywordTypes, w.keywordTypeCode);
    }
  }

  /** Credentials are read for keyword and HTTP monitors only. */
  lemma CredentialsDecoding(id: int, w: WireMonitor)
    requires WellFormed(w)
    ensures var m := Decoded(id, w);
      && (m.monitorType !in {"keyword", "http"} ==>
            m.httpAuthType == m.httpUsername == m.httpPassword == "")
      && (m.monitorType in {"keyword", "http"} ==>
            m.httpUsername == w.httpUsername && m.httpPassword == w.httpPassword)
      && (m.httpAuthType != "" <==> m.monitorType in {"keyword", "http"} && w.httpAuthTypeCode.Some?)
  {
    if Name(MonitorTypes, w.typeCode) in {"keyword", "http"} && w.httpAuthTypeCode.Some? {
      NamesNonEmpty(HttpAuthTypes, w.httpAuthTypeCode.value);
    }
  }

  /**
   * The POST body is read only for POST monitors; the POST type and
   * content type are never read.
   */
  lemma PostDecoding(id: int, w: WireMonitor)
    requires WellFormed(w)
    ensures var m := Decoded(id, w);
      && (m.httpMethod == "POST" ==> m.postValue == w.postValue)
      && (m.postValue != map[] ==> m.httpMethod == "POST")
      && m.postType == "" && m.postContentType == ""
  {
  }

  /** SSL errors are ignored exactly when the wire flag is 1. */
  lemma SslDecoding(id: int, w: WireMonitor)
    requires WellFormed(w)
    ensures Decoded(id, w).ignoreSslErrors <==> w.sslIgnoreErrors == 1
  {
  }

  // ---------------------------------------------------------------------
  // Codes and names

  /** Every decoded name encodes back to the code it was read from. */
  lemma DecodedNamesEncodeBack(id: int, w: WireMonitor)
    requires WellFormed(w)
    ensures var m := Decoded(id, w);
      && CodeOf(MonitorTypes, m.monitorType) == w.typeCode
      && CodeOf(Statuses, m.status) == w.statusCode
      && CodeOf(HttpMethods, m.httpMethod) == w.httpMethodCode
      && (m.monitorType == "port" ==> CodeOf(SubTypes, m.subType) == w.subTypeCode)
      && (m.monitorType == "keyword" ==> CodeOf(KeywordTypes, m.keywordType) == w.keywordTypeCode)
      && (m.httpAuthType != "" ==> CodeOf(HttpAuthTypes, m.httpAuthType) == w.httpAuthTypeCode.value)
  {
    var typeName := Name(MonitorTypes, w.typeCode);
    CodeOfNameOf(MonitorTypes, w.typeCode);
    CodeOfNameOf(Statuses, w.statusCode);
    CodeOfNameOf(HttpMethods, w.httpMethodCode);
    if typeName == "port" {
      CodeOfNameOf(SubTypes, w.subTypeCode);
    }
    if typeName == "keyword" {
      CodeOfNameOf(KeywordTypes, w.keywordTypeCode);
    }
    if typeName in {"keyword", "http"} && w.httpAuthTypeCode.Some? {
      CodeOfNameOf(HttpAuthTypes, w.httpAuthTypeCode.value);
    }
  }

  /** The bindings of a read-back monitor, as a request lists them. */
  function AsRequestContacts(cs: seq<AlertContact>): (rs: seq<RequestContact>)
    ensures |rs| == |cs|
    decreases |cs|
  {
    if |cs| == 0 then []
    else [RequestContact(cs[0].id, cs[0].threshold, cs[0].recurrence)] + AsRequestContacts(cs[1..])
  }

  /** The request that writes a read-back monitor again unchanged. */
  function AsRequest(m: Monitor): MonitorRequest
  {
    MonitorRequest(
      m.friendlyName, m.url, m.monitorType, m.interval, m.subType, m.port,
      m.keywordType, m.keywordValue, m.httpUsername, m.httpPassword, m.httpAuthType,
      m.ignoreSslErrors,
      AsRequestContacts(m.alertContacts),
      m.customHttpHeaders, m.httpMethod, m.postType, m.postContentType, m.postValue)
  }

  lemma SentCodeIsWireCode(form: Form, key: Key, t: Table, code: int)
    requires HasCode(t, code)
    requires SendsCode(form, key, t, Name(t, code))
    ensures Get(form, key) == Some(Text(FormatInt(code)))
  {
  }

  /**
   * Writing a monitor back as it was read sends the type and HTTP method
   * codes it was read with, and for a port monitor its sub-type code.
   */
  lemma EchoSendsWireCodes(id: int, w: WireMonitor)
    requires WellFormed(w)
    ensures var form := CreateForm(AsRequest(Decoded(id, w)));
      && Get(form, Type) == Some(Text(FormatInt(w.typeCode)))
      && Get(form, HttpMethod) == Some(Text(FormatInt(w.httpMethodCode)))
      && (Name(MonitorTypes, w.typeCode) == "port" ==>
            Get(form, SubType) == Some(Text(FormatInt(w.subTypeCode))))
  {
    var req := AsRequest(Decoded(id, w));
    NamesSentAsCodes(req);
    SentCodeIsWireCode(CreateForm(req), Type, MonitorTypes, w.typeCode);
    SentCodeIsWireCode(CreateForm(req), HttpMethod, HttpMethods, w.httpMethodCode);
    if Name(MonitorTypes, w.typeCode) == "port" {
      SentCodeIsWireCode(CreateForm(req), SubType, SubTypes, w.subTypeCode);
    }
  }

  // ---------------------------------------------------------------------
  // Alert-contact order

  /**
   * Wire contacts "c2", "c1" come out as "c1", "c2": every sorted
   * permutation of them is that one.
   */
  lemma SortExample(cs: seq<AlertContact>)
    requires SortedById(cs)
    requires multiset(cs) == multiset([AlertContact("c2", 0, 1), AlertContact("c1", 5, 2)])
    ensures cs == [AlertContact("c1", 5, 2), AlertContact("c2", 0, 1)]
  {
    var expected := [AlertContact("c1", 5, 2), AlertContact("c2", 0, 1)];
    assert Less("c1", "c2") by {
      assert "c1"[1..] == "1" && "c2"[1..] == "2";
    }
    LessAsymmetric("c1", "c2");
    assert SortedById(expected);
    assert multiset(expected) == multiset(cs);
    SortedUnique(expected, cs);
  }

  // ---------------------------------------------------------------------
  // The error texts

  /** The intended message names the identifier in decimal, so it can be read back. */
  lemma NotFoundNamesId(id: int)
    ensures var msg := IntendedMessage(NotFound(id));
      && msg[..|NotFoundPrefix|] == NotFoundPrefix
      && IsDecimal(msg[|NotFoundPrefix|..])
      && ParseInt(msg[|NotFoundPrefix|..]) == id
  {
    var msg := IntendedMessage(NotFound(id));
    assert msg[|NotFoundPrefix|..] == FormatInt(id);
    FormatIntDecimal(id);
    ParseFormatInt(id);
  }

  /** Distinct identifiers give distinct intended messages. */
  lemma NotFoundMessagesDistinct(a: int, b: int)
    requires a != b
    ensures IntendedMessage(NotFound(a)) != IntendedMessage(NotFound(b))
  {
    NotFoundNamesId(a);
    NotFoundNamesId(b);
  }

  /**
   * The intended text determines the error: its kind by the first
   * character, the body text or the identifier by what follows the prefix.
   */
  lemma MessageDeterminesError(a: Error, b: Error)
    ensures IntendedMessage(a) == IntendedMessage(b) <==> a == b
  {
    var ma, mb := IntendedMessage(a), IntendedMessage(b);
    if a.UnknownResponse? && b.UnknownResponse? {
      if ma == mb {
        assert a.raw == ma[|UnknownResponsePrefix|..] == mb[|UnknownResponsePrefix|..] == b.raw;
      }
    } else if a.NotFound? && b.NotFound? {
      if a.id != b.id {
        NotFoundMessagesDistinct(a.id, b.id);
      }
    } else {
      assert ma[0] != mb[0];
    }
  }

  /**
   * The correction changes the not-found text only: the unknown-response
   * text is the same, and no not-found text is.
   */
  lemma IntendedDiffersOnlyForNotFound(e: Error)
    ensures IntendedMessage(e) == MessageAsWritten(e) <==> e.UnknownResponse?
  {
    if e.NotFound? {
      var digits, rune := FormatInt(e.id), RuneText(e.id);
      assert IntendedMessage(e)[|NotFoundPrefix|..] == digits;
      assert MessageAsWritten(e)[|NotFoundPrefix|..] == rune;
      if |digits| == 1 {
        SingleDigitText(e.id);
        assert digits[0] != rune[0];
      }
    }
  }

  /** A one-character decimal text is the digit of a number below ten. */
  lemma SingleDigitText(n: int)
    requires |FormatInt(n)| == 1
    ensures 0 <= n < 10 && FormatInt(n) == [DigitChar(n)]
  {
    LongDecimalText(n);
  }

  lemma LongDecimalText(n: int)
    ensures n < 0 || n >= 10 ==> |FormatInt(n)| >= 2
  {
    if n < 0 {
      FormatNatDigits(-n);
    } else if n >= 10 {
      FormatNatDigits(n / 10);
    }
  }

  /**
   * As written, the message holds the identifier as a single character:
   * 42 gives "*" where "42" is meant, and every invalid code point gives
   * the same replacement character.
   */
  lemma NotFoundAsWrittenLosesId()
    ensures MessageAsWritten(NotFound(42)) == "Monitor not found: *"
    ensures IntendedMessage(NotFound(42)) == "Monitor not found: 42"
    ensures MessageAsWritten(NotFound(-1)) == MessageAsWritten(NotFound(-2))
  {
    assert (42 as char) == '*';
    assert FormatNat(42) == "42" by {
      assert FormatNat(4) == "4";
    }
  }
}
