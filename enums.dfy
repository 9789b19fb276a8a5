/**
 * The fixed name/code tables of the monitor API (monitor type, POST body
 * type, POST content type, port sub-type, status, keyword match type, HTTP
 * method, HTTP auth type), held as the Go source holds them: maps from
 * name to code. No two names of a table share a code, so a code names at
 * most one entry. The write path looks a name up as a Go map does (an
 * absent name gives the zero value 0); the read path turns a registered
 * code back into its name.
 */
module Enums {
  import opened Wrappers

  /** No two names share a code. */
  predicate Injective(t: map<string, int>)
  {
    forall a, b :: a in t && b in t && a != b ==> t[a] != t[b]
  }

  type Table = t: map<string, int> | Injective(t) witness map[]

  const MonitorTypes: Table :=
    map["http" := 1, "keyword" := 2, "ping" := 3, "port" := 4]

  const PostTypes: Table :=
    map["key-value" := 1, "raw data" := 2]

  const PostContentTypes: Table :=
    map["text/html" := 0, "application/json" := 1]

  const SubTypes: Table :=
    map["http" := 1, "https" := 2, "ftp" := 3, "smtp" := 4, "pop3" := 5, "imap" := 6, "custom" := 99]

  const Statuses: Table :=
    map["paused" := 0, "not checked yet" := 1, "up" := 2, "seems down" := 8, "down" := 9]

  const KeywordTypes: Table :=
    map["exists" := 1, "not exists" := 2]

  const HttpMethods: Table :=
    map["HEAD" := 1, "GET" := 2, "POST" := 3, "PUT" := 4, "PATCH" := 5, "DELETE" := 6, "OPTIONS" := 7]

  const HttpAuthTypes: Table :=
    map["basic" := 1, "digest" := 2]

  /** Some name is registered under `code`. */
  predicate HasCode(t: Table, code: int)
  {
    exists name :: name in t && t[name] == code
  }

  /** `table[name]` on a Go map: the registered code, or 0 for an absent name. */
  function CodeOf(t: Table, name: string): int
  {
    if name in t then t[name] else 0
  }

  /** Code to name: the one name registered under `code`, if there is one. */
  function NameOf(t: Table, code: int): (r: Option<string>)
    ensures r.Some? <==> HasCode(t, code)
    ensures r.Some? ==> r.value in t && t[r.value] == code
  {
    if HasCode(t, code) then Some(var name :| name in t && t[name] == code; name) else None
  }

  /** Name to code and back: a registered name is recovered from its code. */
  lemma NameOfCodeOf(t: Table, name: string)
    requires name in t
    ensures NameOf(t, CodeOf(t, name)) == Some(name)
  {
    assert HasCode(t, t[name]);
  }

  /** Code to name and back: a registered code is recovered from its name. */
  lemma CodeOfNameOf(t: Table, code: int)
    requires HasCode(t, code)
    ensures NameOf(t, code).Some? && CodeOf(t, NameOf(t, code).value) == code
  {
  }

  /**
   * The zero default is not always free: an unknown POST content type is
   * sent as the code of "text/html", indistinguishable from it.
   */
  lemma UnknownContentTypeIsTextHtml(name: string)
    requires name !in PostContentTypes
    ensures CodeOf(PostContentTypes, name) == CodeOf(PostContentTypes, "text/html") == 0
  {
  }

  /** No registered name has code 0. */
  predicate ZeroFree(t: Table)
  {
    0 !in t.Values
  }

  /*
   * Apart from the POST content types, every table the write path uses
   * keeps 0 free.
   */

  lemma TypeTablesZeroFree()
    ensures ZeroFree(MonitorTypes) && ZeroFree(SubTypes) && ZeroFree(KeywordTypes)
  {
  }

  lemma HttpTablesZeroFree()
    ensures ZeroFree(HttpMethods) && ZeroFree(HttpAuthTypes) && ZeroFree(PostTypes)
  {
  }

  /** In a table that keeps 0 free, a sent 0 marks an unknown name. */
  lemma ZeroMeansUnknown(t: Table, name: string)
    requires ZeroFree(t)
    ensures CodeOf(t, name) == 0 <==> name !in t
  {
    if name in t {
      assert t[name] in t.Values;
    }
  }
}
