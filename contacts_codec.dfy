/**
 * The `alert_contacts` field can be read back: a reader that splits on '-'
 * and '_' recovers the bindings from the text the encoder sends.
 */
module ContactsCodec {
  import opened Wrappers
  import opened Decimal
  import opened Strings
  import opened Enums
  import opened Monitors
  import opened Forms
  import opened Encoder

  // ---------------------------------------------------------------------
  // The alert-contacts field can be read back

  /** Reads one `id_threshold_recurrence` token. */
  function ParseToken(t: string): Option<RequestContact>
  {
    var parts := Split(t, '_');
    if |parts| == 3 && IsDecimal(parts[1]) && IsDecimal(parts[2])
    then Some(RequestContact(parts[0], ParseInt(parts[1]), ParseInt(parts[2])))
    else None
  }

  function ParseTokens(ts: seq<string>): Option<seq<RequestContact>>
    decreases |ts|
  {
    if |ts| == 0 then Some([])
    else
      match ParseToken(ts[0])
      case None => None
      case Some(c) =>
        match ParseTokens(ts[1..])
        case None => None
        case Some(cs) => Some([c] + cs)
  }

  /** Reads an `alert_contacts` value back into its bindings. */
  function ParseContacts(s: string): Option<seq<RequestContact>>
  {
    if s == "" then Some([]) else ParseTokens(Split(s, '-'))
  }

  /** A binding whose token cannot be misread: no separator in the id, no minus sign in the numbers. */
  predicate Unambiguous(c: RequestContact)
  {
    '-' !in c.id && '_' !in c.id && c.threshold >= 0 && c.recurrence >= 0
  }

  lemma TokenRoundTrip(c: RequestContact)
    requires Unambiguous(c)
    ensures '-' !in ContactToken(c)
    ensures ParseToken(ContactToken(c)) == Some(c)
  {
    var a, b := FormatInt(c.threshold), FormatInt(c.recurrence);
    FormatIntDecimal(c.threshold);
    FormatIntDecimal(c.recurrence);
    DigitsExclude(a, '_');
    DigitsExclude(b, '_');
    DigitsExclude(a, '-');
    DigitsExclude(b, '-');
    assert ContactToken(c) == c.id + ['_'] + (a + ['_'] + b);
    SplitAfterPart(c.id, '_', a + ['_'] + b);
    SplitAfterPart(a, '_', b);
    SplitNoSeparator(b, '_');
    ParseFormatInt(c.threshold);
    ParseFormatInt(c.recurrence);
  }

  lemma {:induction false} TokensRoundTrip(cs: seq<RequestContact>)
    requires forall i :: 0 <= i < |cs| ==> Unambiguous(cs[i])
    ensures ParseTokens(ContactTokens(cs)) == Some(cs)
    decreases |cs|
  {
    if |cs| > 0 {
      TokenRoundTrip(cs[0]);
      TokensRoundTrip(cs[1..]);
      assert [cs[0]] + cs[1..] == cs;
    }
  }

  /**
   * The `alert_contacts` text determines the bindings, in order, whenever no
   * id contains '-' or '_' and no number is negative.
   */
  lemma ContactsRoundTrip(cs: seq<RequestContact>)
    requires forall i :: 0 <= i < |cs| ==> Unambiguous(cs[i])
    ensures ParseContacts(ContactsText(cs)) == Some(cs)
  {
    var ts := ContactTokens(cs);
    if |cs| > 0 {
      forall i | 0 <= i < |ts| ensures '-' !in ts[i] {
        ContactTokenAt(cs, i);
        TokenRoundTrip(cs[i]);
      }
      assert |ts[0]| > 0;
      SplitJoin(ts, '-');
    }
    TokensRoundTrip(cs);
  }

  /** `[{5,2,1},{7,0,0}]` is sent as "5_2_1-7_0_0"; no contacts as "". */
  lemma ContactsTextExamples()
    ensures ContactsText([RequestContact("5", 2, 1), RequestContact("7", 0, 0)]) == "5_2_1-7_0_0"
    ensures ContactsText([]) == ""
  {
    var cs := [RequestContact("5", 2, 1), RequestContact("7", 0, 0)];
    assert FormatInt(2) == "2" && FormatInt(1) == "1" && FormatInt(0) == "0";
    assert ContactToken(cs[0]) == "5_2_1";
    assert ContactToken(cs[1]) == "7_0_0";
    assert ContactTokens(cs) == ["5_2_1", "7_0_0"];
  }
}
