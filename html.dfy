/**
 * The parsed document tree as the extractor consumes it. The markup parser and
 * its CSS selector engine are outside the model: a tree is given as a value,
 * and an element carries the serialised markup of its children (`inner_html`)
 * as the parser reports it.
 */
module Html {
  import opened RustStr

  /** A node of the tree: text, an element, or anything else (comment, doctype, ...). */
  datatype Node = Text(text: string) | Element(elem: Elem) | Other

  /** An element: local tag name, attributes, children in document order, and its inner markup. */
  datatype Elem = Elem(tag: string, attrs: map<string, string>, children: seq<Node>, innerHtml: string)

  /** `Element::attr`. */
  function Attr(e: Elem, name: string): (r: Option<string>)
    ensures r.Some? <==> name in e.attrs
    ensures r.Some? ==> r.value == e.attrs[name]
  {
    if name in e.attrs then Some(e.attrs[name]) else None
  }

  /** `ElementRef::text` collected into one string: every descendant text node, in document order. */
  function TextContent(e: Elem): (r: string)
    ensures e.children == [] ==> r == ""
    ensures |e.children| == 1 && e.children[0].Text? ==> r == e.children[0].text
  {
    assert |e.children| == 1 ==> e.children[1..] == [] && TextOfSeq(e.children) == TextOfNode(e.children[0]) + "";
    TextOfSeq(e.children)
  }

  function TextOfNode(n: Node): string
    decreases n, 1
  {
    match n
    case Text(t) => t
    case Element(c) => TextOfSeq(c.children)
    case Other => ""
  }

  function TextOfSeq(cs: seq<Node>): string
    decreases cs, 0
  {
    if cs == [] then "" else TextOfNode(cs[0]) + TextOfSeq(cs[1..])
  }

  /**
   * A parsed page as the selector engine reports it, keyed by selector text:
   * the first element the selector matches (absent when nothing matches), and
   * the siblings that follow that element's parent, in document order (absent
   * when nothing matches or the match has no parent).
   */
  datatype Page = Page(firstMatch: map<string, Elem>, afterParent: map<string, seq<Node>>)

  /** `html.select(sel).next()`. */
  function SelectFirst(p: Page, sel: string): (r: Option<Elem>)
    ensures r.Some? <==> sel in p.firstMatch
    ensures r.Some? ==> r.value == p.firstMatch[sel]
  {
    if sel in p.firstMatch then Some(p.firstMatch[sel]) else None
  }
}
