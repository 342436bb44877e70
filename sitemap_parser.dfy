/**
  What the sitemap parsers share: a `datasets` generator, observed as what it
  yields before it stops, and the shape of the three JSON index walkers (parse
  the index, select a list, read one identifier field from every element, then
  yield a fixed base URL joined with each identifier).
*/
module SitemapParser {
  import opened Wrappers
  import opened Python
  import opened JsonValue
  import Strings

  /** How a generator stopped: exhausted, or by raising. */
  datatype Stop = Exhausted | Raised(error: PyError)

  /** A generator run to its end: the values it yielded and how it stopped. */
  datatype Gen = Gen(yielded: seq<string>, stop: Stop)

  /** `list(g)`: an exception anywhere loses everything yielded before it. */
  function ToList(g: Gen): Result<seq<string>, PyError> {
    match g.stop
    case Exhausted => Ok(g.yielded)
    case Raised(e) => Err(e)
  }

  /**
    The identifiers of a JSON index: `json.loads(content)`, then the value at
    `path`, iterated, then `element[key]` of each element.
  */
  function IndexIds(content: string, loads: string -> Result<Json, PyError>,
                    path: seq<string>, key: string): Result<seq<Json>, PyError>
  {
    var index :- loads(content);
    var list :- SubscriptPath(index, path);
    var elements :- Iterate(list);
    CollectKey(elements, key)
  }

  /** `f"{prefix}{id}{suffix}"` for every identifier, in order. */
  function Urls(ids: seq<Json>, prefix: string, suffix: string): seq<string> {
    seq(|ids|, i requires 0 <= i < |ids| => prefix + Format(ids[i]) + suffix)
  }

  /**
    A JSON index walker's generator. The identifiers are all collected into a
    list before the first `yield`, so a failure anywhere stops the generator
    before it has produced anything; otherwise it yields one URL per
    identifier, each starting with `prefix` and ending with `suffix`.
  */
  function JsonIndexDatasets(content: string, loads: string -> Result<Json, PyError>,
                             path: seq<string>, key: string,
                             prefix: string, suffix: string): (g: Gen)
    ensures g.stop.Raised? ==> g.yielded == []
    ensures g.stop.Raised? <==> IndexIds(content, loads, path, key).Err?
    ensures g.stop.Exhausted? ==> |g.yielded| == |IndexIds(content, loads, path, key).value|
    ensures forall i | 0 <= i < |g.yielded| ::
      Strings.StartsWith(g.yielded[i], prefix) && Strings.EndsWith(g.yielded[i], suffix)
  {
    match IndexIds(content, loads, path, key)
    case Err(e) => Gen([], Raised(e))
    case Ok(ids) =>
      var urls := Urls(ids, prefix, suffix);
      assert forall i | 0 <= i < |urls| :: urls[i] == prefix + Format(ids[i]) + suffix;
      Gen(urls, Exhausted)
  }

  /**
    When the selected value is a list, the walker yields exactly one URL per
    list element, in list order, if and only if every element has the key.
  */
  lemma JsonIndexOnePerElement(content: string, loads: string -> Result<Json, PyError>,
                               path: seq<string>, key: string, prefix: string, suffix: string,
                               elements: seq<Json>)
    requires loads(content).Ok?
    requires SubscriptPath(loads(content).value, path) == Ok(JArray(elements))
    ensures var g := JsonIndexDatasets(content, loads, path, key, prefix, suffix);
      && (g.stop.Exhausted? <==> forall i | 0 <= i < |elements| :: Subscript(elements[i], key).Ok?)
      && (g.stop.Exhausted? ==>
            |g.yielded| == |elements| &&
            forall i | 0 <= i < |elements| ::
              g.yielded[i] == prefix + Format(Subscript(elements[i], key).value) + suffix)
  {
    var ids := IndexIds(content, loads, path, key);
    assert ids == CollectKey(elements, key);
  }

  /**
    When some element lacks the key (or cannot be subscripted), the walker
    raises that element's error and yields nothing.
  */
  lemma JsonIndexFailsEarly(content: string, loads: string -> Result<Json, PyError>,
                            path: seq<string>, key: string, prefix: string, suffix: string,
                            elements: seq<Json>, k: nat)
    requires loads(content).Ok?
    requires SubscriptPath(loads(content).value, path) == Ok(JArray(elements))
    requires k < |elements| && Subscript(elements[k], key).Err?
    requires forall j | 0 <= j < k :: Subscript(elements[j], key).Ok?
    ensures JsonIndexDatasets(content, loads, path, key, prefix, suffix)
         == Gen([], Raised(Subscript(elements[k], key).error))
  {
    var r := CollectKey(elements, key);
    assert IndexIds(content, loads, path, key) == r;
    assert r.Err?;
    var k' :| 0 <= k' < |elements| && Subscript(elements[k'], key) == Err(r.error)
      && forall j | 0 <= j < k' :: Subscript(elements[j], key).Ok?;
    assert k' == k;
  }
}
