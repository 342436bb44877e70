/**
  The element tree `xml.etree.ElementTree.fromstring` builds, and the
  descendant axis `findall('.//tag')` walks.
*/
module XmlTree {
  import opened Wrappers
  import Seqs

  /**
    An element: its tag (`"{namespace}local"` for a namespaced name, as
    ElementTree writes it), its text (`None` when no character data comes
    before the first child) and its children in document order.
  */
  datatype Element = Element(tag: string, text: Option<string>, children: seq<Element>)

  /** The descendants of `e` in document order (preorder); `e` itself is not one. */
  function Descendants(e: Element): seq<Element>
    decreases e
  {
    Seqs.Concat(seq(|e.children|, i requires 0 <= i < |e.children| =>
                      [e.children[i]] + Descendants(e.children[i])))
  }

  /** `e.findall('.//' + tag)`: the descendants with exactly that tag, in document order. */
  function FindAll(e: Element, tag: string): seq<Element> {
    Seqs.Filter((x: Element) => x.tag == tag, Descendants(e))
  }

  /** Preorder: the first child, then its descendants, then the rest of the children's. */
  lemma DescendantsCons(tag: string, text: Option<string>, c: Element, cs: seq<Element>)
    ensures Descendants(Element(tag, text, [c] + cs))
         == [c] + Descendants(c) + Descendants(Element(tag, text, cs))
  {
    var e := Element(tag, text, [c] + cs);
    var pieces := seq(|e.children|, i requires 0 <= i < |e.children| =>
                        [e.children[i]] + Descendants(e.children[i]));
    var rest := Element(tag, text, cs);
    var restPieces := seq(|rest.children|, i requires 0 <= i < |rest.children| =>
                            [rest.children[i]] + Descendants(rest.children[i]));
    assert pieces[1..] == restPieces;
    assert Descendants(e) == Seqs.Concat(pieces);
  }
}
