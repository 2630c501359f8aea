/**
 * `document.styleSheets`: the live, ordered list of a document's style blocks
 * and stylesheet links, whose `item(i)` resolves the i-th element to a style
 * sheet on every call, through the shared parse cache.
 */
module DocumentStyleSheets {
  import opened Wrappers
  import opened Css
  import opened Dom
  import opened Host

  /** What `item` gives a script, and the shared state afterwards. */
  datatype Resolution = Resolution(outcome: Result<SheetInfo, ScriptError>, post: State)

  /**
   * `item` on one element of the list. A style block is looked up under its
   * text and, on a miss, parsed with no URI. A link's response body is looked
   * up before its status is looked at; on a miss an error status makes the
   * empty text be parsed and cached instead, with the response URL as the
   * source URI. A failed fetch is a script error and changes nothing. No
   * wrapper made here is given a URI.
   */
  function ResolveItem(e: Element, s: State): (r: Resolution)
    requires IsSheetElement(e)
    ensures e.Style? ==>
      var key := StyleText(e.firstChild);
      r.outcome.Success? && r.outcome.value.owner == e.node && r.outcome.value.uri == None &&
      key in r.post.cache && r.outcome.value.sheet == r.post.cache[key]
    ensures e.Style? && StyleText(e.firstChild) in s.cache ==> r.post == s
    ensures e.Style? && StyleText(e.firstChild) !in s.cache ==>
      r.outcome.value.sheet == |s.parsed| &&
      r.post.parsed == s.parsed + [Parsed(StyleText(e.firstChild), None)] &&
      r.post.cache == s.cache[StyleText(e.firstChild) := |s.parsed|]
    ensures e.Link? && e.response.FetchFailed? ==> r == Resolution(Failure(RuntimeError), s)
    ensures e.Link? && e.response.Fetched? && e.response.body in s.cache ==>
      r == Resolution(Success(SheetInfo(e.node, s.cache[e.response.body], None)), s)
    ensures e.Link? && e.response.Fetched? && e.response.body !in s.cache ==>
      var css := if e.response.status >= 400 then "" else e.response.body;
      r.outcome == Success(SheetInfo(e.node, |s.parsed|, None)) &&
      r.post.parsed == s.parsed + [Parsed(css, Some(e.response.url))] &&
      r.post.cache == s.cache[css := |s.parsed|]
  {
    if e.Style? then
      var step := LookupOrParse(s, StyleText(e.firstChild), None);
      Resolution(Success(SheetInfo(e.node, step.sheet, None)), step.post)
    else
      match e.response
      case FetchFailed => Resolution(Failure(RuntimeError), s)
      case Fetched(status, body, url) =>
        if body in s.cache then
          Resolution(Success(SheetInfo(e.node, s.cache[body], None)), s)
        else
          var step := ParseAndStore(s, if status >= 400 then "" else body, Some(url));
          Resolution(Success(SheetInfo(e.node, step.sheet, None)), step.post)
  }

  /** The text the sheet `item` returns was parsed from, when the cache was consistent. */
  function ItemText(e: Element, s: State): string
    requires IsSheetElement(e) && !(e.Link? && e.response.FetchFailed?)
  {
    if e.Style? then StyleText(e.firstChild)
    else if e.response.body in s.cache || e.response.status < 400 then e.response.body
    else ""
  }

  /**
   * `item` keeps the cache consistent, and the sheet it returns was parsed
   * from the block's text, the link's body, or, only for an error status
   * whose body was not cached, the empty text.
   */
  lemma ItemKeepsCacheConsistent(e: Element, s: State)
    requires IsSheetElement(e) && Consistent(s)
    ensures Consistent(ResolveItem(e, s).post)
    ensures ResolveItem(e, s).outcome.Success? ==>
      var r := ResolveItem(e, s);
      r.outcome.value.sheet < |r.post.parsed| &&
      r.post.parsed[r.outcome.value.sheet].text == ItemText(e, s)
  {
    if e.Style? {
      LookupOrParseConsistent(s, StyleText(e.firstChild), None);
    }
  }

  /**
   * A link with an error status is not always given an empty sheet: when its
   * body is already cached, the sheet parsed from that body is returned.
   */
  lemma ErrorStatusReturnsCachedBody(e: Element, s: State)
    requires IsSheetElement(e) && Consistent(s)
    requires e.Link? && e.response.Fetched? && e.response.status >= 400
    requires e.response.body in s.cache
    ensures var r := ResolveItem(e, s);
      r.outcome.Success? && r.post == s &&
      s.parsed[r.outcome.value.sheet].text == e.response.body
  {
    ItemKeepsCacheConsistent(e, s);
  }

  /**
   * Two style blocks with the same text share one parsed sheet: resolving
   * the second after the first finds the first's sheet and changes nothing.
   */
  lemma SameTextSharesSheet(e1: Element, e2: Element, s: State)
    requires e1.Style? && e2.Style? && StyleText(e1.firstChild) == StyleText(e2.firstChild)
    ensures var r1 := ResolveItem(e1, s);
      var r2 := ResolveItem(e2, r1.post);
      r2.post == r1.post && r2.outcome.value.sheet == r1.outcome.value.sheet &&
      r2.outcome.value.owner == e2.node
  {
  }

  /** The text `item` looks up in the cache: a block's text, or a link's raw response body. */
  function LookupKey(e: Element): string
    requires IsSheetElement(e) && !(e.Link? && e.response.FetchFailed?)
  {
    if e.Style? then StyleText(e.firstChild) else e.response.body
  }

  /**
   * Any two list elements with the same lookup text, blocks or links, share
   * one parsed sheet: resolving the second after the first finds the first's
   * sheet and changes nothing, unless the first was an error-status link
   * miss whose body was parsed as "" instead.
   */
  lemma EqualKeySharesSheet(e1: Element, e2: Element, s: State)
    requires IsSheetElement(e1) && !(e1.Link? && e1.response.FetchFailed?)
    requires IsSheetElement(e2) && !(e2.Link? && e2.response.FetchFailed?)
    requires LookupKey(e1) == LookupKey(e2) && !ReparsesOnRepeat(e1, s)
    ensures var r1 := ResolveItem(e1, s);
      var r2 := ResolveItem(e2, r1.post);
      r2.post == r1.post && r2.outcome.Success? &&
      r2.outcome.value.sheet == r1.outcome.value.sheet && r2.outcome.value.owner == e2.node
  {
    if e1.Link? {
      assert e1.response.body in ResolveItem(e1, s).post.cache;
    }
  }

  /** Whether `item` on `e` is an error-status miss that parses "" for a non-empty body. */
  predicate ReparsesOnRepeat(e: Element, s: State) {
    e.Link? && e.response.Fetched? && e.response.status >= 400 &&
    e.response.body != "" && e.response.body !in s.cache
  }

  /**
   * Calling `item` twice on the same element with nothing changed in between
   * gives the same outcome on the second call without touching the cache,
   * except for a link whose error-status body was not cached.
   */
  lemma RepeatedItemIsCacheHit(e: Element, s: State)
    requires IsSheetElement(e) && !ReparsesOnRepeat(e, s)
    ensures var r1 := ResolveItem(e, s);
      var r2 := ResolveItem(e, r1.post);
      r2 == r1
  {
    var r1 := ResolveItem(e, s);
    if e.Link? && e.response.Fetched? {
      assert e.response.body in r1.post.cache;
    }
  }

  /**
   * For a link with an error status whose non-empty body is not cached, every
   * call parses and caches a new empty sheet under "", so two calls give two
   * different sheets.
   */
  lemma RepeatedErrorLinkReparses(e: Element, s: State)
    requires IsSheetElement(e) && ReparsesOnRepeat(e, s)
    ensures var r1 := ResolveItem(e, s);
      var r2 := ResolveItem(e, r1.post);
      r2.outcome.value.sheet != r1.outcome.value.sheet &&
      r2.post.cache == s.cache["" := r2.outcome.value.sheet] &&
      r2.post.parsed[r1.outcome.value.sheet].text == "" &&
      r2.post.parsed[r2.outcome.value.sheet].text == ""
  {
    var r1 := ResolveItem(e, s);
    assert e.response.body !in r1.post.cache;
  }

  /**
   * `item` changes no cache entry other than the one for its own key, and
   * only an error-status link miss can replace one: the entry for "".
   */
  lemma ItemKeepsOtherEntries(e: Element, s: State)
    requires IsSheetElement(e)
    ensures var r := ResolveItem(e, s);
      forall k :: k in s.cache && k != "" ==> k in r.post.cache && r.post.cache[k] == s.cache[k]
    ensures e.Style? || e.response.FetchFailed? || e.response.status < 400 ==>
      var r := ResolveItem(e, s);
      forall k :: k in s.cache ==> k in r.post.cache && r.post.cache[k] == s.cache[k]
  {
  }

  /**
   * An error-status link miss overwrites the entry for "": an empty style
   * block resolved before and after such a link gets two different sheets.
   */
  lemma ErrorLinkDisplacesEmptyStyle(block: Element, link: Element, s: State)
    requires Consistent(s) && block.Style? && StyleText(block.firstChild) == ""
    requires IsSheetElement(link) && ReparsesOnRepeat(link, s)
    ensures var r1 := ResolveItem(block, s);
      var r2 := ResolveItem(link, r1.post);
      var r3 := ResolveItem(block, r2.post);
      r3.outcome.value.sheet != r1.outcome.value.sheet &&
      r3.outcome.value.sheet == r2.outcome.value.sheet
  {
    var r1 := ResolveItem(block, s);
    ItemKeepsCacheConsistent(block, s);
    assert link.response.body !in r1.post.cache;
  }

  /** The document the list belongs to; other code may change its elements between calls. */
  class Document {
    var elements: seq<Element>

    constructor (elements: seq<Element>)
      ensures this.elements == elements
    {
      this.elements := elements;
    }
  }

  class StyleSheetList {
    const document: Document
    /** Whether CSS was enabled when the list was made: only then is its collection initialised. */
    const cssEnabled: bool

    constructor (document: Document, cssEnabled: bool)
      ensures this.document == document && this.cssEnabled == cssEnabled
    {
      this.document := document;
      this.cssEnabled := cssEnabled;
    }

    /** The live collection behind the list, as of the current document. */
    function Nodes(): (r: seq<Element>)
      reads document
      ensures !cssEnabled ==> r == []
      ensures cssEnabled ==> r == Qualifying(document.elements)
      ensures forall k :: 0 <= k < |r| ==> IsSheetElement(r[k])
    {
      if cssEnabled then Qualifying(document.elements) else []
    }

    /** `length`: 0 if CSS was disabled at construction, else the number of style sheet elements. */
    function Length(): (n: nat)
      reads document
      ensures !cssEnabled ==> n == 0
      ensures cssEnabled ==> n == CountSheetElements(document.elements)
    {
      QualifyingLength(document.elements);
      |Nodes()|
    }

    /** `item(index)`: resolves the index-th element of the collection, afresh on every call. */
    method Item(index: int, cache: Cache, parser: Parser) returns (r: Result<Stylesheet, ScriptError>)
      requires 0 <= index < Length()
      modifies cache, parser
      ensures var res := ResolveItem(Nodes()[index], old(Snapshot(cache, parser)));
        Describe(r) == res.outcome && Snapshot(cache, parser) == res.post
      ensures r.Success? ==> fresh(r.value)
    {
      var element := Nodes()[index];
      if element.Style? {
        var css := StyleText(element.firstChild);
        var cached := cache.GetCachedStyleSheet(css);
        var sheet: Stylesheet;
        if cached.Some? {
          sheet := new Stylesheet(element.node, cached.value, None);
        } else {
          var parsed := parser.Parse(css, None);
          sheet := new Stylesheet(element.node, parsed, None);
          cache.Store(css, sheet.wrapped);
        }
        r := Success(sheet);
      } else {
        match element.response
        case FetchFailed =>
          r := Failure(RuntimeError);
        case Fetched(status, body, url) =>
          var css := body;
          var cached := cache.GetCachedStyleSheet(css);
          var sheet: Stylesheet;
          if cached.Some? {
            sheet := new Stylesheet(element.node, cached.value, None);
          } else {
            if status >= 400 {
              css := "";
            }
            var parsed := parser.Parse(css, Some(url));
            sheet := new Stylesheet(element.node, parsed, None);
            cache.Store(css, sheet.wrapped);
          }
          r := Success(sheet);
      }
    }

    /**
     * Indexed property access: on the list itself it is `item(index)`; for
     * any other start object the generic lookup answers (None here).
     */
    method Get(index: int, start: object, cache: Cache, parser: Parser)
      returns (r: Option<Result<Stylesheet, ScriptError>>)
      requires start == this ==> 0 <= index < Length()
      modifies cache, parser
      ensures start != this ==> r == None && Snapshot(cache, parser) == old(Snapshot(cache, parser))
      ensures start == this ==>
        var res := ResolveItem(Nodes()[index], old(Snapshot(cache, parser)));
        r.Some? && Describe(r.value) == res.outcome && Snapshot(cache, parser) == res.post
    {
      if start == this {
        var item := Item(index, cache, parser);
        r := Some(item);
      } else {
        r := None;
      }
    }
  }
}
