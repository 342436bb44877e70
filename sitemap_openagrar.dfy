/**
  The sitemap parser for the OpenAgrar repository: its index is a JSON search
  response whose `response.docs` list holds one document per dataset; each
  document's `id` becomes `https://www.openagrar.de/receive/<id>`.
*/
module SitemapOpenAgrar {
  import opened Wrappers
  import opened Python
  import opened JsonValue
  import opened SitemapParser
  import Strings

  const BASE_URL: string := "https://www.openagrar.de/receive/"

  /** `SitemapParserOpenAgrar.datasets` over `loads`, the JSON parser. */
  function Datasets(content: string, loads: string -> Result<Json, PyError>): (g: Gen)
    ensures g.stop.Raised? ==> g.yielded == []
    ensures forall i | 0 <= i < |g.yielded| :: Strings.StartsWith(g.yielded[i], BASE_URL)
  {
    JsonIndexDatasets(content, loads, ["response", "docs"], "id", BASE_URL, "")
  }

  /** One URL per element of `response.docs`, in the same order, when every document has an `id`. */
  lemma OneUrlPerDoc(content: string, loads: string -> Result<Json, PyError>, docs: seq<Json>)
    requires loads(content).Ok?
    requires SubscriptPath(loads(content).value, ["response", "docs"]) == Ok(JArray(docs))
    requires forall i | 0 <= i < |docs| :: Subscript(docs[i], "id").Ok?
    ensures var g := Datasets(content, loads);
      && g.stop == Exhausted
      && |g.yielded| == |docs|
      && forall i | 0 <= i < |docs| :: g.yielded[i] == BASE_URL + Format(Subscript(docs[i], "id").value)
  {
    JsonIndexOnePerElement(content, loads, ["response", "docs"], "id", BASE_URL, "", docs);
    var g := Datasets(content, loads);
    forall i | 0 <= i < |docs|
      ensures g.yielded[i] == BASE_URL + Format(Subscript(docs[i], "id").value)
    {
      assert BASE_URL + Format(Subscript(docs[i], "id").value) + "" == BASE_URL + Format(Subscript(docs[i], "id").value);
    }
  }

  /** A document without `id` stops the generator with a `KeyError` before any URL. */
  lemma MissingIdYieldsNothing(content: string, loads: string -> Result<Json, PyError>,
                               docs: seq<Json>, k: nat, members: seq<(string, Json)>)
    requires loads(content).Ok?
    requires SubscriptPath(loads(content).value, ["response", "docs"]) == Ok(JArray(docs))
    requires k < |docs| && docs[k] == JObject(members) && Lookup(members, "id").None?
    requires forall j | 0 <= j < k :: Subscript(docs[j], "id").Ok?
    ensures Datasets(content, loads) == Gen([], Raised(PyError(KeyError, StrRepr("id"))))
  {
    JsonIndexFailsEarly(content, loads, ["response", "docs"], "id", BASE_URL, "", docs, k);
  }

  /** An index without `response` raises `KeyError('response')` and yields nothing. */
  lemma MissingResponseYieldsNothing(content: string, loads: string -> Result<Json, PyError>,
                                     members: seq<(string, Json)>)
    requires loads(content) == Ok(JObject(members)) && Lookup(members, "response").None?
    ensures Datasets(content, loads) == Gen([], Raised(PyError(KeyError, StrRepr("response"))))
  {
  }
}
