/**
 * The script object of one `<style>` element. Its `sheet` property resolves
 * the element's text through the shared parse cache once, and then keeps
 * returning that same wrapper.
 */
module StyleElement {
  import opened Wrappers
  import opened Css
  import opened Dom
  import opened Host

  /** What `sheet` gives a script, and the shared state afterwards. */
  datatype Access = Access(sheet: SheetInfo, post: State)

  /**
   * `sheet` for the element `node` of a page requested from `pageUrl`, given
   * its memo slot and its current first-child text: the memo if it is set;
   * otherwise the cached sheet for the text, or a new one parsed from it and
   * cached, wrapped with the page's URL in either case.
   */
  function ResolveSheet(memo: Option<SheetInfo>, node: NodeId, firstChild: Option<string>,
                        pageUrl: string, s: State): (r: Access)
    ensures memo.Some? ==> r == Access(memo.value, s)
    ensures memo.None? ==>
      var key := StyleText(firstChild);
      r.sheet.owner == node && r.sheet.uri == Some(pageUrl) &&
      key in r.post.cache && r.sheet.sheet == r.post.cache[key]
    ensures memo.None? && StyleText(firstChild) in s.cache ==> r.post == s
    ensures memo.None? && StyleText(firstChild) !in s.cache ==>
      r.sheet.sheet == |s.parsed| &&
      r.post.parsed == s.parsed + [Parsed(StyleText(firstChild), None)] &&
      r.post.cache == s.cache[StyleText(firstChild) := |s.parsed|]
  {
    match memo
    case Some(m) => Access(m, s)
    case None =>
      var step := LookupOrParse(s, StyleText(firstChild), None);
      Access(SheetInfo(node, step.sheet, Some(pageUrl)), step.post)
  }

  /** Once the memo is set, the element's text no longer matters. */
  lemma MemoIgnoresText(m: SheetInfo, node: NodeId, t1: Option<string>, t2: Option<string>,
                        pageUrl: string, s: State)
    ensures ResolveSheet(Some(m), node, t1, pageUrl, s) == ResolveSheet(Some(m), node, t2, pageUrl, s)
  {
  }

  /** The first access keeps the cache consistent and wraps a sheet parsed from the element's text. */
  lemma SheetKeepsCacheConsistent(node: NodeId, firstChild: Option<string>,
                                                      pageUrl: string, s: State)
    requires Consistent(s)
    ensures var r := ResolveSheet(None, node, firstChild, pageUrl, s);
      Consistent(r.post) && r.sheet.sheet < |r.post.parsed| &&
      r.post.parsed[r.sheet.sheet].text == StyleText(firstChild)
  {
    LookupOrParseConsistent(s, StyleText(firstChild), None);
  }

  /** The first `sheet` access changes no existing cache entry; it can only add one for its key. */
  lemma SheetKeepsEntries(node: NodeId, firstChild: Option<string>, pageUrl: string, s: State)
    ensures var r := ResolveSheet(None, node, firstChild, pageUrl, s);
      forall k :: k in s.cache ==> k in r.post.cache && r.post.cache[k] == s.cache[k]
  {
  }

  class HTMLStyleElement {
    const node: NodeId
    /** The URL the page holding the element was requested from. */
    const pageUrl: string
    /** The text of the element's first child; the DOM may change it. */
    var firstChild: Option<string>
    /** The memo slot `sheet_`: set on first access, never replaced. */
    var sheet: Stylesheet?

    constructor (node: NodeId, pageUrl: string, firstChild: Option<string>)
      ensures this.node == node && this.pageUrl == pageUrl && this.firstChild == firstChild
      ensures sheet == null
    {
      this.node := node;
      this.pageUrl := pageUrl;
      this.firstChild := firstChild;
      sheet := null;
    }

    /** What the memo slot holds. */
    function Memo(): Option<SheetInfo>
      reads this
    {
      if sheet == null then None else Some(sheet.Info())
    }

    /** `sheet`: the memoised wrapper, resolving and caching on the first call only. */
    method GetSheet(cache: Cache, parser: Parser) returns (r: Stylesheet)
      modifies this`sheet, cache, parser
      ensures sheet == r
      ensures old(sheet) != null ==> r == old(sheet) && unchanged(cache, parser)
      ensures old(sheet) == null ==> fresh(r)
      ensures var res := ResolveSheet(old(Memo()), node, old(firstChild), pageUrl, old(Snapshot(cache, parser)));
        r.Info() == res.sheet && Snapshot(cache, parser) == res.post
    {
      if sheet != null {
        return sheet;
      }
      var css := StyleText(firstChild);
      var cached := cache.GetCachedStyleSheet(css);
      var uri := pageUrl;
      if cached.Some? {
        sheet := new Stylesheet(node, cached.value, Some(uri));
      } else {
        var parsed := parser.Parse(css, None);
        sheet := new Stylesheet(node, parsed, Some(uri));
        cache.Store(css, sheet.wrapped);
      }
      r := sheet;
    }

    /** `styleSheet` (the Internet Explorer name): exactly what `sheet` gives. */
    method GetStyleSheet(cache: Cache, parser: Parser) returns (r: Stylesheet)
      modifies this`sheet, cache, parser
      ensures sheet == r
      ensures old(sheet) != null ==> r == old(sheet) && unchanged(cache, parser)
      ensures old(sheet) == null ==> fresh(r)
      ensures var res := ResolveSheet(old(Memo()), node, old(firstChild), pageUrl, old(Snapshot(cache, parser)));
        r.Info() == res.sheet && Snapshot(cache, parser) == res.post
    {
      r := GetSheet(cache, parser);
    }
  }
}
