# UptimeRobot monitor mapper, in Dafny

This project models the monitor mapper of the UptimeRobot Terraform provider
(`uptimerobot/api/monitor.go`). The mapper translates between a typed
`Monitor` and the flat, integer-coded form fields of the UptimeRobot API. It
has four parts:

- **The enumeration tables.** These map names to codes: monitor type, port
  sub-type, status, keyword type, HTTP method, HTTP auth type, POST type and
  POST content type (module `Enums`). The write path looks a name up as a Go
  map does, so an unknown name gives 0. The read path turns a registered code
  back into its name.
- **The request encoder of `CreateMonitor` and `UpdateMonitor`** (modules
  `Encoder`, `EncoderShape`, `EncoderProperties`, `ContactsCodec`).
  - Each form is built step by step by methods that append (key, value) pairs,
    one per `url.Values.Add` call, in the order of the calls.
  - Each method is proved equal to a specification function. The function
    states its rules group by group: core fields, then the type-specific
    fields, the POST fields, the SSL flag and alert contacts, and the custom
    headers.
  - Lemmas then state which keys each form holds, and what each key carries.
  - They show how update differs from create.
  - They show that the alert-contacts text can be read back.
- **The response decoder of `GetMonitor`** (modules `Decoder`,
  `DecoderProperties`, `ReadRequest`). The answer of "getMonitors" arrives as
  an already parsed record with integer codes.
  - The decoder has two error exits.
  - It reads the type-specific fields and the POST body, and it copies the
    string maps entry by entry.
  - It fills an array with the alert contacts and sorts it.
  - The result is proved equal to a declarative `Decoded` monitor. Lemmas
    state what that monitor keeps from the wire.
- **The sort of the alert contacts by ID** (module `ContactSort`). This is an
  in-place insertion sort on an `array`. It is proved sorted by ID and a
  permutation of its input. Any sorted permutation of contacts with distinct
  IDs is unique.

The supporting modules are:

- `Decimal`: Go's `%d` formatting, with a parser as its inverse.
- `Strings`: `strings.Join`, a splitter, and Go's byte-wise string `<`. On
  Unicode scalar values, this orders strings as their UTF-8 bytes do.
- `Forms`: the form keys with their exact wire names, and `Get` as
  `url.Values.Get`.
- `Monitors`: the record types.
- `Wrappers`: `Option` and `Result`.

Two points about the read path:

- An unregistered code on the read path is meant to be reported as an error.
  The conversion that would report it (`intToString`) is not part of this
  model, so `GetMonitor` requires registered codes.
- The not-found error is meant to name the identifier, but the code converts
  it with a rune conversion. `Decoder.MessageAsWritten` gives the text as the
  code builds it and `Decoder.IntendedMessage` the text as intended; see
  Findings.

## Model

| member | source | states |
|---|---|---|
| Decimal.FormatNatDigits | uptimerobot/api/monitor.go:262 | `%d` of a natural number is a non-empty digit string with no leading zero (except "0" itself) |
| Decimal.FormatIntDecimal | uptimerobot/api/monitor.go:262 | `%d` of an integer is decimal text: digits, with a leading '-' exactly for negative numbers |
| Decimal.ParseFormatNat | uptimerobot/api/monitor.go:262 | reading the decimal text of a natural number gives back that number |
| Decimal.ParseFormatInt | uptimerobot/api/monitor.go:262 | reading the `%d` text of any integer gives back that integer |
| Decimal.FormatIntInjective | uptimerobot/api/monitor.go:362 | distinct integers (such as monitor ids) have distinct `%d` texts |
| Strings.SplitJoin | uptimerobot/api/monitor.go:307 | splitting a `strings.Join` result on the separator gives back the parts when no part contains it |
| Strings.LessIrreflexive | uptimerobot/api/monitor.go:216-218 | the ID comparison of the sort is irreflexive |
| Strings.LessAsymmetric | uptimerobot/api/monitor.go:216-218 | the ID comparison is asymmetric |
| Strings.LessTransitive | uptimerobot/api/monitor.go:216-218 | the ID comparison is transitive |
| Strings.LessTotal | uptimerobot/api/monitor.go:216-218 | any two different IDs are ordered one way or the other |
| Strings.NotAfterTransitive | uptimerobot/api/monitor.go:216-218 | "not after" (the sortedness relation) is transitive |
| Strings.NotAfterAntisymmetric | uptimerobot/api/monitor.go:216-218 | two IDs each not after the other are equal |
| Enums.NameOf | uptimerobot/api/monitor.go:12-72 | code to name gives a name exactly when the code is registered, and that name is registered under that code |
| Enums.NameOfCodeOf | uptimerobot/api/monitor.go:12-72 | every registered name is recovered from its code (the codes of a table are distinct) |
| Enums.CodeOfNameOf | uptimerobot/api/monitor.go:12-72 | every registered code is recovered from its name |
| Enums.UnknownContentTypeIsTextHtml | uptimerobot/api/monitor.go:26-29 | an unknown POST content type is sent as 0, the same code as "text/html" |
| Enums.TypeTablesZeroFree | uptimerobot/api/monitor.go:12-55 | no monitor type, sub-type or keyword type has code 0 |
| Enums.HttpTablesZeroFree | uptimerobot/api/monitor.go:20-72 | no HTTP method, auth type or POST type has code 0 |
| Enums.ZeroMeansUnknown | uptimerobot/api/monitor.go:261-288 | in a table without a 0 code, a name is sent as 0 exactly when it is not registered |
| Forms.WireNameRoundTrip | uptimerobot/api/monitor.go:259-315 | each form key's wire spelling reads back as that key |
| Forms.WireNamesDistinct | uptimerobot/api/monitor.go:259-315 | two keys have the same wire name exactly when they are the same key |
| Encoder.ContactTokenAt | uptimerobot/api/monitor.go:304-305 | the k-th token is `id_threshold_recurrence` of the k-th binding |
| Encoder.FormatContacts | uptimerobot/api/monitor.go:303-307 | the loop that fills `acStrings` and joins it with '-' yields the alert-contacts text |
| Encoder.AddCoreFields | uptimerobot/api/monitor.go:259-263 | appends `friendly_name`, `url`, `type`, `interval` and `http_method`, with codes for the names |
| Encoder.AddTypeFields | uptimerobot/api/monitor.go:265-283 | the type switch appends the port, keyword and auth groups exactly as each group's type rule says |
| Encoder.AddPostFields | uptimerobot/api/monitor.go:285-295 | appends the three POST fields for a POST monitor and nothing otherwise |
| Encoder.AddBodyFields | uptimerobot/api/monitor.go:259-307 | appends every field from `friendly_name` to `alert_contacts` in source order |
| Encoder.BuildCreateForm | uptimerobot/api/monitor.go:258-315 | the form CreateMonitor builds is the create form |
| Encoder.BuildUpdateForm | uptimerobot/api/monitor.go:361-422 | the form UpdateMonitor builds is the update form: `id` first, headers always |
| EncoderShape.CoreFieldsKeys | uptimerobot/api/monitor.go:259-263 | the core group holds exactly the five core keys |
| EncoderShape.PortFieldsKeys | uptimerobot/api/monitor.go:265-269 | `sub_type` and `port` are sent exactly for a port monitor |
| EncoderShape.KeywordFieldsKeys | uptimerobot/api/monitor.go:270-272 | `keyword_type` and `keyword_value` are sent exactly for a keyword monitor |
| EncoderShape.AuthFieldsKeys | uptimerobot/api/monitor.go:274-281 | the three auth keys are sent exactly for keyword and http monitors |
| EncoderShape.PostFieldsKeys | uptimerobot/api/monitor.go:285-295 | the three POST keys are sent exactly for the POST method |
| EncoderShape.FlagFieldsKeys | uptimerobot/api/monitor.go:297-307 | `ignore_ssl_errors` and `alert_contacts` are always sent |
| EncoderShape.CreateHeaderKeys | uptimerobot/api/monitor.go:310-315 | create holds `custom_http_headers` exactly when the header map is non-empty |
| EncoderShape.HeaderKeysOnly | uptimerobot/api/monitor.go:310-315 | the header step of either form adds no key but `custom_http_headers` |
| EncoderShape.BodyFieldsShape | uptimerobot/api/monitor.go:259-307 | the shared fields come in one fixed order, so no key is added twice |
| EncoderShape.CreateFormOrdered | uptimerobot/api/monitor.go:258-315 | create's `Add` calls follow the canonical key order, so each key is added at most once (one value per key) |
| EncoderShape.UpdateFormOrdered | uptimerobot/api/monitor.go:361-422 | update's `Add` calls follow the canonical key order, so each key is added at most once (one value per key) |
| EncoderProperties.BodySends | uptimerobot/api/monitor.go:259-307 | a key is among the shared fields exactly when the per-group rules call for it |
| EncoderProperties.CreateSendsExactly | uptimerobot/api/monitor.go:258-315 | the create form holds a key exactly when the type, method and header rules call for it |
| EncoderProperties.UpdateSendsExactly | uptimerobot/api/monitor.go:361-422 | the update form holds `id`, `custom_http_headers` and exactly the keys create's rules call for |
| EncoderProperties.GetCreate | uptimerobot/api/monitor.go:258-315 | every entry added to the create form is what a lookup of its key returns |
| EncoderProperties.PortSent | uptimerobot/api/monitor.go:266-268 | a port monitor sends its port number as decimal text |
| EncoderProperties.PostValueSent | uptimerobot/api/monitor.go:286-293 | a POST monitor sends its POST body map under `post_value` |
| EncoderProperties.SslFlagSent | uptimerobot/api/monitor.go:297-301 | `ignore_ssl_errors` is "1" exactly when the flag is set, "0" exactly when not |
| EncoderProperties.ContactsSent | uptimerobot/api/monitor.go:303-307 | `alert_contacts` carries the '-'-join of the bindings' tokens, in order |
| EncoderProperties.CodeSent | uptimerobot/api/monitor.go:261-288 | a code field sends "0" for an unknown name and the table code for a registered one |
| EncoderProperties.CoreCodesSent | uptimerobot/api/monitor.go:261-263 | `type` and `http_method` carry their table codes, or "0" for unknown names |
| EncoderProperties.SubTypeCodeSent | uptimerobot/api/monitor.go:267 | a port monitor's `sub_type` carries its table code, or "0" |
| EncoderProperties.KeywordTypeCodeSent | uptimerobot/api/monitor.go:271 | a keyword monitor's `keyword_type` carries its table code, or "0" |
| EncoderProperties.AuthTypeCodeSent | uptimerobot/api/monitor.go:274-279 | `http_auth_type` carries its table code, or "0", for keyword and http monitors |
| EncoderProperties.PostCodesSent | uptimerobot/api/monitor.go:287-288 | `post_type` and `post_content_type` carry their table codes, or "0" |
| EncoderProperties.NamesSentAsCodes | uptimerobot/api/monitor.go:261-288 | every enumeration field that is sent carries its table code, or "0" for an unknown name |
| EncoderProperties.CreateHeadersOnlyWhenSet | uptimerobot/api/monitor.go:310-315 | create sends the header map when it is non-empty and no `custom_http_headers` key otherwise |
| EncoderProperties.UpdateAlwaysSendsHeaders | uptimerobot/api/monitor.go:414-422 | update always sends `custom_http_headers`: the map, or the literal "{}" for an empty one |
| EncoderProperties.UpdateSendsId | uptimerobot/api/monitor.go:362 | update sends the monitor id as decimal text under `id` |
| EncoderProperties.UpdateExtendsCreate | uptimerobot/api/monitor.go:361-411 | apart from `id` and `custom_http_headers`, each key carries the same value in both forms |
| EncoderProperties.UpdateKeysExtendCreate | uptimerobot/api/monitor.go:361-422 | update's `Add` calls add `id`, then create's keys in create's order, plus `custom_http_headers` when create omits it |
| ContactsCodec.TokenRoundTrip | uptimerobot/api/monitor.go:305 | an `id_threshold_recurrence` token reads back as its binding (no separator in the id, no negative number) |
| ContactsCodec.TokensRoundTrip | uptimerobot/api/monitor.go:303-306 | the tokens read back as the bindings, in order |
| ContactsCodec.ContactsRoundTrip | uptimerobot/api/monitor.go:303-307 | the alert-contacts text determines the bindings, in order |
| ContactsCodec.ContactsTextExamples | uptimerobot/api/monitor.go:303-307 | `[{5,2,1},{7,0,0}]` is sent as "5_2_1-7_0_0"; no bindings as "" |
| ContactSort.Swap | uptimerobot/api/monitor.go:216-218 | exchanges two contacts and keeps the multiset of contacts |
| ContactSort.SortById | uptimerobot/api/monitor.go:216-218 | sorts the contact array in place by ID: sorted, and a permutation of the input |
| ContactSort.SortedUnique | uptimerobot/api/monitor.go:216-218 | two sorted permutations of contacts with distinct IDs are equal, so the order does not depend on the algorithm |
| Decoder.RuneText | uptimerobot/api/monitor.go:135 | Go's `string(int)` is always a single character |
| Decoder.CopyStrings | uptimerobot/api/monitor.go:186-190 | the entry-by-entry copy of a JSON string object is equal to it (also used at lines 200-204) |
| Decoder.ReadContacts | uptimerobot/api/monitor.go:206-218 | the contacts read into an array come out sorted by ID and a permutation of the wire contacts |
| Decoder.ReadCommonFields | uptimerobot/api/monitor.go:141-148 | sets the id and the six unconditional fields as the decoded monitor has them; the rest stay zero |
| Decoder.ReadTypeFields | uptimerobot/api/monitor.go:150-178 | the type switch sets exactly the type-specific fields of the decoded monitor |
| Decoder.ReadOptions | uptimerobot/api/monitor.go:180-204 | the POST body is set only for POST; the SSL flag is whether the wire value is 1; the headers are copied |
| Decoder.GetMonitor | uptimerobot/api/monitor.go:127-219 | no monitor list gives the unknown-response error with the raw body, and an empty list gives not-found; otherwise the decoded first record with the requested id, with contacts sorted by ID and a permutation of the wire contacts |
| DecoderProperties.NamesNonEmpty | uptimerobot/api/monitor.go:12-72 | a decoded name of a table without "" is never empty |
| DecoderProperties.PortDecoding | uptimerobot/api/monitor.go:150-157 | the port is the wire port for a custom port monitor and 0 otherwise; a sub-type is read exactly for port monitors |
| DecoderProperties.KeywordDecoding | uptimerobot/api/monitor.go:159-161 | the keyword type and value are read exactly for keyword monitors |
| DecoderProperties.CredentialsDecoding | uptimerobot/api/monitor.go:159-177 | credentials are read for keyword and http monitors only; an auth type exactly when the wire has one |
| DecoderProperties.PostDecoding | uptimerobot/api/monitor.go:180-191 | the POST body is read only for POST monitors; the POST type and content type are never read |
| DecoderProperties.SslDecoding | uptimerobot/api/monitor.go:193-198 | SSL errors are ignored exactly when the wire flag is 1 |
| DecoderProperties.DecodedNamesEncodeBack | uptimerobot/api/monitor.go:143-177 | every decoded name looks up to the code it was read from |
| DecoderProperties.EchoSendsWireCodes | uptimerobot/api/monitor.go:145-152 | writing a read monitor back sends the type, method and sub-type codes it was read with |
| DecoderProperties.SortExample | uptimerobot/api/monitor.go:216-218 | wire contacts "c2", "c1" come out as "c1", "c2" |
| DecoderProperties.MessageDeterminesError | uptimerobot/api/monitor.go:130-135 | with the intended texts, two errors have the same message exactly when they are the same error (kind, body text or id) |
| DecoderProperties.IntendedDiffersOnlyForNotFound | uptimerobot/api/monitor.go:130-135 | the as-written and intended texts agree exactly for the unknown-response error; every not-found text differs |
| DecoderProperties.NotFoundNamesId | uptimerobot/api/monitor.go:134-136 | the corrected not-found message is the prefix followed by the id in decimal, which reads back as the id |
| DecoderProperties.NotFoundMessagesDistinct | uptimerobot/api/monitor.go:134-136 | distinct ids give distinct corrected not-found messages |
| DecoderProperties.NotFoundAsWrittenLosesId | uptimerobot/api/monitor.go:135 | as written, id 42 gives "Monitor not found: *", and -1 and -2 give the same message |
| ReadRequest.BuildReadForm | uptimerobot/api/monitor.go:111-117 | the getMonitors form's `Add` calls add the id, then `ssl`, `custom_http_headers` and `alert_contacts` as "1", then two "true" flags |
| ReadRequest.ReadFormGets | uptimerobot/api/monitor.go:111-117 | each key of the getMonitors form carries its value |
| ReadRequest.ReadFormKeys | uptimerobot/api/monitor.go:111-117 | the getMonitors form holds exactly its six keys, in order |

## Left out

- `MakeCall` and the network: the "newMonitor", "editMonitor" and "getMonitors" calls, their transport errors, and the re-fetch through GetMonitor after create and update (monitor.go:119-125, 317-328, 424-432). These are I/O, so the model stops at the form that would be sent. GetMonitor takes the parsed answer as a parameter.
- `DeleteMonitor` (monitor.go:435-447): a bare transport call with no logic of its own.
- `json.Marshal` and `url.Values.Encode`. A JSON-valued field is kept as the map it would render (`Json(map)`), and the form as the list of pairs before percent-encoding. Marshalling a string-to-string map cannot fail, so the `err == nil` guards always hold.
- Forms: the order of a form's pairs is the order of the `Add` calls, not the order sent. `url.Values` keeps no order between keys, and `Encode` sends them sorted by name. What reaches the wire is the set of keys with their values. Each key is added at most once (`KeysDistinct`, from `Ordered`), so that set is one value per key, which `Get` reads.
- JSON numbers are `float64` in Go and are converted with `int(...)`. The wire record holds integers directly.
- The Go type assertions that panic on a wrongly shaped answer (monitor.go:139-213). Only the shape that does not panic is modelled: `WellFormed` and the fields of `WireMonitor`.
- `intToString` and `mapKeys` are not part of this model. Decoder.GetMonitor requires every code it names to be registered (`WellFormed`). What happens to an unregistered code is not modelled.
- ContactSort.SortById is an insertion sort, where Go's `sort.Slice` is a pattern-defeating quicksort and is not stable. The contract states what `sort.Slice` promises: sorted and a permutation. With distinct IDs the result is unique (SortedUnique). With duplicate IDs the order among equal IDs is not captured.
- Go's nil and empty maps and slices are not told apart. A non-POST monitor's `PostValue` and the unset fields are empty values.
- Decoder.CopyStrings visits keys in an arbitrary order, as Go's map iteration does. Only the resulting map is stated.

## Findings

| source | as written | input that shows it | evidently intended | confidence | as-written member | corrected member |
|---|---|---|---|---|---|---|
| uptimerobot/api/monitor.go:135 | `string(id)` converts the integer to the single character with that code point | id 42 gives "Monitor not found: *"; ids -1 and -2 give the same message | the id in decimal, as `%d` gives it: "Monitor not found: 42" | not executed | Decoder.MessageAsWritten (shown by DecoderProperties.NotFoundAsWrittenLosesId) | Decoder.IntendedMessage (proved by DecoderProperties.NotFoundNamesId, DecoderProperties.NotFoundMessagesDistinct and DecoderProperties.MessageDeterminesError) |
