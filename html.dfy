/**
 * The document tree the HTML parser hands to the extractor, reduced to what
 * the extractor reads: the node kind, `Data`, the attribute list and the
 * children in sibling order.
 */
module Html {

  /** One `key="val"` attribute, in the order it appears in the start tag. */
  datatype Attribute = Attribute(key: string, val: string)

  /**
   * A parsed node. As in the parser's own node type, `data` is the tag name
   * of an element, the text of a text node, and the payload of any other
   * node (the document root, a comment, a doctype).
   */
  datatype Node =
    | Element(data: string, attrs: seq<Attribute>, children: seq<Node>)
    | Text(data: string, children: seq<Node>)
    | Other(data: string, children: seq<Node>)

  /** Every node of the tree rooted at `n`, each once, in document (pre-)order. */
  function Preorder(n: Node): seq<Node>
  {
    [n] + PreorderAll(n.children)
  }

  /** The pre-order listings of a sibling list, one tree after the other. */
  function PreorderAll(cs: seq<Node>): seq<Node>
  {
    if cs == [] then [] else Preorder(cs[0]) + PreorderAll(cs[1..])
  }

  /** The pre-order of a sibling suffix is the pre-order of its first tree followed by the rest. */
  lemma PreorderAllFrom(cs: seq<Node>, i: nat)
    requires i < |cs|
    ensures PreorderAll(cs[i..]) == Preorder(cs[i]) + PreorderAll(cs[i + 1..])
  {
    assert cs[i..][0] == cs[i];
    assert cs[i..][1..] == cs[i + 1..];
  }

  /** Every node listed for a sibling suffix is listed for the whole sibling list. */
  lemma {:induction false} PreorderAllSuffix(cs: seq<Node>, i: nat)
    requires i <= |cs|
    ensures forall x :: x in PreorderAll(cs[i..]) ==> x in PreorderAll(cs)
  {
    if i > 0 {
      PreorderAllSuffix(cs[1..], i - 1);
      assert cs[1..][i - 1..] == cs[i..];
    }
  }

  /** Every node of a child's subtree is listed in its parent's pre-order. */
  lemma PreorderOfChild(n: Node, i: nat)
    requires i < |n.children|
    ensures forall x :: x in Preorder(n.children[i]) ==> x in Preorder(n)
  {
    PreorderAllSuffix(n.children, i);
    PreorderAllFrom(n.children, i);
  }
}
