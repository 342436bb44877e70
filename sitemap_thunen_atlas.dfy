/**
  The sitemap parser for the Thünen Atlas repository: its index is a JSON
  object whose `resources` list holds one resource per dataset; each
  resource's `pk` becomes `https://atlas.thuenen.de/api/v2/resources/<pk>`.
*/
module SitemapThunenAtlas {
  import opened Wrappers
  import opened Python
  import opened JsonValue
  import opened SitemapParser
  import Strings

  const BASE_URL: string := "https://atlas.thuenen.de/api/v2/resources/"

  /** `SitemapParserThunenAtlas.datasets` over `loads`, the JSON parser. */
  function Datasets(content: string, loads: string -> Result<Json, PyError>): (g: Gen)
    ensures g.stop.Raised? ==> g.yielded == []
    ensures forall i | 0 <= i < |g.yielded| :: Strings.StartsWith(g.yielded[i], BASE_URL)
  {
    JsonIndexDatasets(content, loads, ["resources"], "pk", BASE_URL, "")
  }

  /** One URL per element of `resources`, in order, when every resource has a `pk`. */
  lemma OneUrlPerResource(content: string, loads: string -> Result<Json, PyError>, resources: seq<Json>)
    requires loads(content).Ok?
    requires Subscript(loads(content).value, "resources") == Ok(JArray(resources))
    requires forall i | 0 <= i < |resources| :: Subscript(resources[i], "pk").Ok?
    ensures var g := Datasets(content, loads);
      && g.stop == Exhausted
      && |g.yielded| == |resources|
      && forall i | 0 <= i < |resources| ::
           g.yielded[i] == BASE_URL + Format(Subscript(resources[i], "pk").value)
  {
    assert SubscriptPath(loads(content).value, ["resources"]) == Ok(JArray(resources));
    JsonIndexOnePerElement(content, loads, ["resources"], "pk", BASE_URL, "", resources);
    var g := Datasets(content, loads);
    forall i | 0 <= i < |resources|
      ensures g.yielded[i] == BASE_URL + Format(Subscript(resources[i], "pk").value)
    {
      assert BASE_URL + Format(Subscript(resources[i], "pk").value) + ""
          == BASE_URL + Format(Subscript(resources[i], "pk").value);
    }
  }

  /** A resource without `pk` stops the generator with a `KeyError` before any URL. */
  lemma MissingPkYieldsNothing(content: string, loads: string -> Result<Json, PyError>,
                               resources: seq<Json>, k: nat, members: seq<(string, Json)>)
    requires loads(content).Ok?
    requires Subscript(loads(content).value, "resources") == Ok(JArray(resources))
    requires k < |resources| && resources[k] == JObject(members) && Lookup(members, "pk").None?
    requires forall j | 0 <= j < k :: Subscript(resources[j], "pk").Ok?
    ensures Datasets(content, loads) == Gen([], Raised(PyError(KeyError, StrRepr("pk"))))
  {
    assert SubscriptPath(loads(content).value, ["resources"]) == Ok(JArray(resources));
    JsonIndexFailsEarly(content, loads, ["resources"], "pk", BASE_URL, "", resources, k);
  }

  /** An integer `pk` is written in decimal: `pk` 42 gives `.../resources/42`. */
  lemma IntegerPk(content: string, loads: string -> Result<Json, PyError>)
    requires loads(content) == Ok(JObject([("resources", JArray([JObject([("pk", JInt(42))])]))]))
    ensures Datasets(content, loads)
         == Gen(["https://atlas.thuenen.de/api/v2/resources/42"], Exhausted)
  {
    var resources := [JObject([("pk", JInt(42))])];
    assert Subscript(loads(content).value, "resources") == Ok(JArray(resources));
    assert Subscript(resources[0], "pk") == Ok(JInt(42));
    OneUrlPerResource(content, loads, resources);
    FortyTwoUrl();
    var g := Datasets(content, loads);
    assert g.yielded == [BASE_URL + Format(JInt(42))];
  }

  lemma FortyTwoUrl()
    ensures BASE_URL + Format(JInt(42)) == "https://atlas.thuenen.de/api/v2/resources/42"
  {
    assert Digits(42) == "42" by { assert Digits(4) == "4"; }
    assert Format(JInt(42)) == "42";
  }
}
