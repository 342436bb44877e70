/**
  The sitemap parser for the Publisso repository (FRL): its index is a JSON
  list of records; each record's `@id` becomes
  `https://frl.publisso.de/resource/<id>.json2`.
*/
module SitemapPublisso {
  import opened Wrappers
  import opened Python
  import opened JsonValue
  import opened SitemapParser
  import Strings

  const BASE_URL: string := "https://frl.publisso.de/resource/"
  const SUFFIX: string := ".json2"

  /** `SitemapParserPublisso.datasets` over `loads`, the JSON parser. */
  function Datasets(content: string, loads: string -> Result<Json, PyError>): (g: Gen)
    ensures g.stop.Raised? ==> g.yielded == []
    ensures forall i | 0 <= i < |g.yielded| ::
      Strings.StartsWith(g.yielded[i], BASE_URL) && Strings.EndsWith(g.yielded[i], SUFFIX)
  {
    JsonIndexDatasets(content, loads, [], "@id", BASE_URL, SUFFIX)
  }

  /** One URL per element of the top-level list, in order, when every record has an `@id`. */
  lemma OneUrlPerRecord(content: string, loads: string -> Result<Json, PyError>, records: seq<Json>)
    requires loads(content) == Ok(JArray(records))
    requires forall i | 0 <= i < |records| :: Subscript(records[i], "@id").Ok?
    ensures var g := Datasets(content, loads);
      && g.stop == Exhausted
      && |g.yielded| == |records|
      && forall i | 0 <= i < |records| ::
           g.yielded[i] == BASE_URL + Format(Subscript(records[i], "@id").value) + SUFFIX
  {
    JsonIndexOnePerElement(content, loads, [], "@id", BASE_URL, SUFFIX, records);
  }

  /** A record without `@id` stops the generator with a `KeyError` before any URL. */
  lemma MissingIdYieldsNothing(content: string, loads: string -> Result<Json, PyError>,
                               records: seq<Json>, k: nat, members: seq<(string, Json)>)
    requires loads(content) == Ok(JArray(records))
    requires k < |records| && records[k] == JObject(members) && Lookup(members, "@id").None?
    requires forall j | 0 <= j < k :: Subscript(records[j], "@id").Ok?
    ensures Datasets(content, loads) == Gen([], Raised(PyError(KeyError, StrRepr("@id"))))
  {
    JsonIndexFailsEarly(content, loads, [], "@id", BASE_URL, SUFFIX, records, k);
  }
}
