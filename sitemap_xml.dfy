/**
  The sitemap parser for XML sitemaps of the Sitemap protocol 0.9
  (sitemaps.org): it yields the text of every `loc` element in the protocol's
  namespace below the root, in document order, skipping those without text.
*/
module SitemapXml {
  import opened Wrappers
  import opened Python
  import opened XmlTree
  import opened SitemapParser
  import Seqs

  const SITEMAP_NAMESPACE: string := "http://www.sitemaps.org/schemas/sitemap/0.9"

  /** The ElementTree name of the protocol's `loc` element. */
  const LOC: string := "{" + SITEMAP_NAMESPACE + "}loc"

  /** The texts of the elements whose text is not `None`, in order. */
  function Texts(es: seq<Element>): (ts: seq<string>)
    ensures |ts| <= |es|
    ensures |ts| == |es| <==> forall i | 0 <= i < |es| :: es[i].text.Some?
  {
    if es == [] then []
    else
      var rest := Texts(es[1..]);
      assert forall i | 1 <= i < |es| :: es[i] == es[1..][i - 1];
      (if es[0].text.Some? then [es[0].text.value] else []) + rest
  }

  /** A text is among the texts exactly when some element carries it. */
  lemma {:induction false} TextsMembership(es: seq<Element>, t: string)
    ensures t in Texts(es) <==> exists i | 0 <= i < |es| :: es[i].text == Some(t)
  {
    if es != [] {
      TextsMembership(es[1..], t);
      assert forall i | 1 <= i < |es| :: es[i] == es[1..][i - 1];
      if es[0].text == Some(t) {
        assert t in Texts(es);
      }
    }
  }

  lemma {:induction false} TextsAppend(a: seq<Element>, b: seq<Element>)
    ensures Texts(a + b) == Texts(a) + Texts(b)
  {
    if a == [] {
      assert a + b == b;
    } else {
      var head := if a[0].text.Some? then [a[0].text.value] else [];
      assert (a + b)[0] == a[0];
      assert (a + b)[1..] == a[1..] + b;
      TextsAppend(a[1..], b);
      assert Texts(a + b) == head + (Texts(a[1..]) + Texts(b));
    }
  }

  /** `root.findall('.//{http://www.sitemaps.org/schemas/sitemap/0.9}loc')`. */
  function Locs(root: Element): seq<Element> {
    FindAll(root, LOC)
  }

  /**
    The URLs of a parsed sitemap: each is the text of a namespaced `loc`
    descendant, every such descendant with text contributes its text, and
    there are at most as many URLs as `loc` descendants, exactly as many when
    none of them lacks text.
  */
  function LocTexts(root: Element): (urls: seq<string>)
    ensures forall u | u in urls ::
      exists d | d in Descendants(root) :: d.tag == LOC && d.text == Some(u)
    ensures forall d | d in Descendants(root) && d.tag == LOC && d.text.Some? :: d.text.value in urls
    ensures |urls| <= |Locs(root)|
    ensures |urls| == |Locs(root)| <==> forall i | 0 <= i < |Locs(root)| :: Locs(root)[i].text.Some?
  {
    var locs := Locs(root);
    forall u | u in Texts(locs)
      ensures exists d | d in Descendants(root) :: d.tag == LOC && d.text == Some(u)
    {
      TextsMembership(locs, u);
      var i :| 0 <= i < |locs| && locs[i].text == Some(u);
      assert locs[i] in Descendants(root) && locs[i].tag == LOC;
    }
    forall d | d in Descendants(root) && d.tag == LOC && d.text.Some?
      ensures d.text.value in Texts(locs)
    {
      Seqs.FilterKeeps((x: Element) => x.tag == LOC, Descendants(root), d);
      var i :| 0 <= i < |locs| && locs[i] == d;
      TextsMembership(locs, d.text.value);
    }
    Texts(locs)
  }

  /**
    `SitemapParserXml.datasets` over `fromstring`, the XML parser: a document
    that does not parse stops the generator before it yields anything.
  */
  function Datasets(content: string, fromstring: string -> Result<Element, PyError>): (g: Gen)
    ensures fromstring(content).Err? ==> g == Gen([], Raised(fromstring(content).error))
    ensures fromstring(content).Ok? ==> g == Gen(LocTexts(fromstring(content).value), Exhausted)
  {
    match fromstring(content)
    case Err(e) => Gen([], Raised(e))
    case Ok(root) => Gen(LocTexts(root), Exhausted)
  }

  /**
    Document order: an element's first child comes first (if it is itself a
    namespaced `loc` with text), then the URLs inside it, then those of the
    remaining children.
  */
  lemma LocTextsCons(tag: string, text: Option<string>, c: Element, cs: seq<Element>)
    ensures LocTexts(Element(tag, text, [c] + cs))
         == (if c.tag == LOC && c.text.Some? then [c.text.value] else [])
            + LocTexts(c) + LocTexts(Element(tag, text, cs))
  {
    var isLoc := (x: Element) => x.tag == LOC;
    DescendantsCons(tag, text, c, cs);
    Seqs.FilterAppend(isLoc, [c] + Descendants(c), Descendants(Element(tag, text, cs)));
    Seqs.FilterAppend(isLoc, [c], Descendants(c));
    TextsAppend(Seqs.Filter(isLoc, [c]) + Locs(c), Locs(Element(tag, text, cs)));
    TextsAppend(Seqs.Filter(isLoc, [c]), Locs(c));
    assert Seqs.Filter(isLoc, [c]) == if c.tag == LOC then [c] else [];
  }

  /** The root's own tag and text never matter: `.//` selects descendants only. */
  lemma RootNotSelected(root: Element)
    ensures LocTexts(root) == LocTexts(Element("", None, root.children))
  {
  }

  /** A namespaced `loc` whose text is the first thing in the document is the first URL. */
  lemma FirstLocFirst(tag: string, text: Option<string>, url: string, cs: seq<Element>)
    ensures var urls := LocTexts(Element(tag, text, [Element(LOC, Some(url), [])] + cs));
      |urls| >= 1 && urls[0] == url
  {
    var c := Element(LOC, Some(url), []);
    LocTextsCons(tag, text, c, cs);
    assert Descendants(c) == [];
  }
}
