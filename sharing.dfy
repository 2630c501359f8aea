/**
 * How the two access paths meet in the shared parse cache: `item` on the
 * style sheet list and `sheet` on a style element share parsed sheets for
 * equal text, while their wrappers differ.
 */
module Sharing {
  import opened Wrappers
  import opened Css
  import opened Dom
  import opened Host
  import opened DocumentStyleSheets
  import opened StyleElement

  /**
   * A style block resolved through the list, then an element with the same
   * text resolved through its `sheet` property: the second finds the first's
   * sheet and leaves the cache alone; only its wrapper carries the page URL.
   */
  lemma ListThenElementShareSheet(e: Element, node: NodeId, firstChild: Option<string>,
                                  pageUrl: string, s: State)
    requires e.Style? && StyleText(e.firstChild) == StyleText(firstChild)
    ensures var r1 := ResolveItem(e, s);
      var r2 := ResolveSheet(None, node, firstChild, pageUrl, r1.post);
      r2.post == r1.post && r2.sheet.sheet == r1.outcome.value.sheet &&
      r1.outcome.value.uri == None && r2.sheet.uri == Some(pageUrl)
  {
  }

  /** The other order: an element's first `sheet` access, then `item` on a block with the same text. */
  lemma ElementThenListShareSheet(e: Element, node: NodeId, firstChild: Option<string>,
                                  pageUrl: string, s: State)
    requires e.Style? && StyleText(e.firstChild) == StyleText(firstChild)
    ensures var r1 := ResolveSheet(None, node, firstChild, pageUrl, s);
      var r2 := ResolveItem(e, r1.post);
      r2.post == r1.post && r2.outcome.value.sheet == r1.sheet.sheet
  {
  }

  /**
   * A document holding two style blocks with the same text: the list has
   * length 2, its two items are distinct wrappers around one parsed sheet.
   * The script object of the first block, read before and after its text
   * changes, gives one and the same wrapper around that sheet, distinct from
   * the wrapper `item` gave for the same element.
   */
  method TwoIdenticalBlocksShareOneParse(text: string, pageUrl: string)
    returns (n: nat, a: Stylesheet, b: Stylesheet, h1: Stylesheet, h2: Stylesheet)
    ensures n == 2
    ensures a != b && a.wrapped == b.wrapped
    ensures h1 == h2 && h1.wrapped == a.wrapped && h1.uri == Some(pageUrl)
    ensures h1 != a
  {
    var cache := new Cache();
    var parser := new Parser();
    var document := new Document([Style(1, Some(text)), Other(2), Style(3, Some(text))]);
    var list := new StyleSheetList(document, true);
    var elements := document.elements;
    assert elements[1..][1..] == [Style(3, Some(text))] && elements[1..][1..][1..] == [];
    assert Qualifying(elements[1..][1..]) == [Style(3, Some(text))];
    assert Qualifying(elements[1..]) == [Style(3, Some(text))];
    assert Qualifying(elements) == [Style(1, Some(text)), Style(3, Some(text))];
    assert list.Nodes() == [Style(1, Some(text)), Style(3, Some(text))];
    n := list.Length();
    var first := list.Item(0, cache, parser);
    var second := list.Item(1, cache, parser);
    a, b := first.value, second.value;
    var element := new HTMLStyleElement(1, pageUrl, Some(text));
    h1 := element.GetSheet(cache, parser);
    element.firstChild := Some(text + "p { }");
    h2 := element.GetStyleSheet(cache, parser);
  }
}
