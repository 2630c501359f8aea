/**
 * The part of the document the style sheet list sees: its elements in
 * document order, and the test that selects the style-bearing ones
 * (the XPath `.//style | .//link[lower-case(@rel)='stylesheet']`).
 */
module Dom {
  import opened Wrappers

  /** Identity of a DOM node. */
  type NodeId = nat

  /** What fetching a link's href gives: a response, or an exception. */
  datatype FetchResult =
    | Fetched(status: int, body: string, url: string)
    | FetchFailed

  /**
   * An element of the document. A style block carries the text of its first
   * child, if it has one; a link carries its `rel` and `href` attributes and
   * the response fetching it yields.
   */
  datatype Element =
    | Style(node: NodeId, firstChild: Option<string>)
    | Link(node: NodeId, rel: string, href: string, response: FetchResult)
    | Other(node: NodeId)

  /** The CSS text of a style block: its first child's text, or "" when it has no child. */
  function StyleText(firstChild: Option<string>): string {
    firstChild.GetOr("")
  }

  /** XPath `lower-case`, on the ASCII letters. */
  function LowerChar(c: char): char {
    if 'A' <= c <= 'Z' then (c as int - 'A' as int + 'a' as int) as char else c
  }

  function Lower(s: string): string {
    seq(|s|, i requires 0 <= i < |s| => LowerChar(s[i]))
  }

  /** An element the style sheet list holds: any style block, a link whose lower-cased rel is "stylesheet". */
  predicate IsSheetElement(e: Element) {
    match e
    case Style(_, _) => true
    case Link(_, rel, _, _) => Lower(rel) == "stylesheet"
    case Other(_) => false
  }

  /** The style sheet elements of `doc`, in document order. */
  function Qualifying(doc: seq<Element>): (r: seq<Element>)
    ensures |r| <= |doc|
    ensures forall k :: 0 <= k < |r| ==> IsSheetElement(r[k]) && r[k] in doc
  {
    if doc == [] then []
    else if IsSheetElement(doc[0]) then [doc[0]] + Qualifying(doc[1..])
    else Qualifying(doc[1..])
  }

  /** How many elements of `doc` are style sheet elements, counted one by one. */
  function CountSheetElements(doc: seq<Element>): nat {
    if doc == [] then 0
    else (if IsSheetElement(doc[0]) then 1 else 0) + CountSheetElements(doc[1..])
  }

  /** The list has exactly as many entries as the document has style sheet elements. */
  lemma {:induction false} QualifyingLength(doc: seq<Element>)
    ensures |Qualifying(doc)| == CountSheetElements(doc)
  {
    if doc != [] {
      QualifyingLength(doc[1..]);
    }
  }

  /**
   * Entry `i` of the list is the element at some position `j` of the document
   * that is a style sheet element preceded by exactly `i` others: the list
   * picks the elements in document order.
   */
  function PositionOf(doc: seq<Element>, i: nat): (j: nat)
    requires i < |Qualifying(doc)|
    ensures j < |doc| && doc[j] == Qualifying(doc)[i]
    ensures IsSheetElement(doc[j])
    ensures CountSheetElements(doc[..j]) == i
  {
    if IsSheetElement(doc[0]) && i == 0 then
      assert doc[..0] == [];
      0
    else
      var i' := if IsSheetElement(doc[0]) then i - 1 else i;
      var j' := PositionOf(doc[1..], i');
      assert doc[..j' + 1][1..] == doc[1..][..j'];
      j' + 1
  }

  /**
   * Every style sheet element of the document is in the list, at the index
   * given by the number of style sheet elements before it.
   */
  lemma {:induction false} ElementListedInOrder(doc: seq<Element>, j: nat)
    requires j < |doc| && IsSheetElement(doc[j])
    ensures CountSheetElements(doc[..j]) < |Qualifying(doc)|
    ensures Qualifying(doc)[CountSheetElements(doc[..j])] == doc[j]
  {
    if j == 0 {
      assert doc[..0] == [];
    } else {
      ElementListedInOrder(doc[1..], j - 1);
      assert doc[..j][1..] == doc[1..][..j - 1];
    }
  }
}
