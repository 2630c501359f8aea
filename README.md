# Style sheet resolution in HtmlUnit, modelled in Dafny

This project models how HtmlUnit turns a document's `<style>` blocks and
`<link rel="stylesheet">` elements into script-visible style sheet objects.
It covers two access paths, which share one parse cache keyed on CSS text:

* `document.styleSheets` (`StyleSheetList`). This is a live list of the
  qualifying elements in document order. It is empty if CSS was disabled when
  the list was made. `item(i)` resolves the i-th element again on every call:
  * the key is a style block's first-child text, or a link's fetched body;
  * on a cache hit it wraps the cached sheet;
  * on a miss it parses the text and caches the result;
  * a link whose status is 400 or more and whose body is not cached gets an
    empty sheet instead, stored under `""`.
* `HTMLStyleElement.sheet` (`jsxGet_sheet`, and `styleSheet` for Internet
  Explorer). It does the same lookup-or-populate for one style element, once.
  The wrapper it makes carries the page's request URL and is kept in the
  single-assignment slot `sheet_`.

Files:

* `wrappers.dfy`: `Option` and `Result`.
* `css.dfy` (module `Css`): the cache and the parser, as classes changed in
  place, plus the shared state as a value (`State`). It also holds the
  lookup-or-populate step and the cache invariant `Consistent`: every cached
  sheet was parsed from exactly the text it is cached under.
* `dom.dfy` (module `Dom`): elements, fetch results, and the membership test
  `.//style | .//link[lower-case(@rel)='stylesheet']` as a filter
  over a `seq<Element>`.
* `host.dfy` (module `Host`): the `Stylesheet` wrapper object.
* `style_sheet_list.dfy` (module `DocumentStyleSheets`): the `StyleSheetList`
  class and `ResolveItem`, the function that specifies `item`.
* `html_style_element.dfy` (module `StyleElement`): the `HTMLStyleElement`
  class and `ResolveSheet`, the function that specifies `sheet`.
* `sharing.dfy` (module `Sharing`): how the two paths share parsed sheets.

Parsing is modelled as appending `Parsed(text, sourceUri)` to the parser's
log. A `SheetId` is a position in that log, so every parse gives a new
identity. This lets the model state when two wrappers share one parsed sheet.
`StyleSheetList.Item`, `StyleSheetList.Get` on the list itself,
`HTMLStyleElement.GetSheet` and `HTMLStyleElement.GetStyleSheet` are proved
against specification functions. Each `ensures` equates the new cache, the new
parser log and what the method returns with `ResolveItem` or `ResolveSheet`
applied to the old state. For another start object, `Get` returns `None` and
changes nothing. The lemmas are about those functions. The methods of
`Cache` and `Parser` state the get, put and parse interfaces the two paths use.

A style element's text appears twice: in the document's `Style` values, which
the list reads, and in the `firstChild` field of an `HTMLStyleElement`. The two
are kept separately, so the lemmas that relate the paths assume the two texts
are equal.

Behaviour of the link path and of URIs:

* An error status does not always give an empty sheet. `item` looks up the raw
  response body in the cache before it looks at the status, so a cached body
  is returned for a 404 too (`ErrorStatusReturnsCachedBody`).
* On a miss with an error status the new empty sheet is stored under `""`,
  not under the body, replacing any entry for `""`. So for a link whose body
  is non-empty, a second `item` call parses again (`RepeatedErrorLinkReparses`). Such a miss also
  displaces the sheet cached for empty style text: the same empty block
  resolved before and after that link gets two different sheets
  (`ErrorLinkDisplacesEmptyStyle`), and a later first `sheet` access on an
  empty style element finds the link's sheet too, since it looks up `""`.
* Apart from that `""` entry, no resolution changes an existing cache entry
  (`ItemKeepsOtherEntries`, `SheetKeepsEntries`). So a repeated `item` call is
  a hit that changes nothing (`RepeatedItemIsCacheHit`), except on an
  error-status link whose non-empty body is not cached.
* Equal lookup text shares one parse across elements of any kind. The lookup
  text is a block's text or a link's raw response body. Two blocks, two links,
  or a block and a link with equal lookup text get the same parsed sheet, and
  the second resolution changes nothing (`EqualKeySharesSheet`). The exception
  is when the first element is an error-status link whose non-empty body is
  not cached.
* Only `HTMLStyleElement` gives its wrapper a URI: the page's request URL, on
  both the hit and the miss branch. `StyleSheetList` never gives its wrappers
  a URI. A style block is parsed without a source URI. A link miss is parsed
  with the response URL, not the href, as its source URI.

## Model

| member | source | states |
|---|---|---|
| `Css.Cache.GetCachedStyleSheet` | src/main/java/com/gargoylesoftware/htmlunit/javascript/host/StyleSheetList.java:109 | The result is present exactly when the text is a key of the cache, and is then the sheet cached under it. |
| `Css.Cache.Store` | src/main/java/com/gargoylesoftware/htmlunit/javascript/host/StyleSheetList.java:116 | The cache afterwards maps the text to the sheet; every other entry is as before. |
| `Css.Parser.Parse` | src/main/java/com/gargoylesoftware/htmlunit/javascript/host/StyleSheetList.java:114-115 | Parsing gives a sheet never produced before, recorded with the text and source URI it was parsed from. |
| `Css.ParseAndStore` | src/main/java/com/gargoylesoftware/htmlunit/javascript/host/StyleSheetList.java:136-139 | A miss makes a new sheet from the given text and source URI and caches it under that text. If the cache was consistent, it stays so, the new sheet was parsed from that text, and no earlier entry holds it. |
| `Css.LookupOrParse` | src/main/java/com/gargoylesoftware/htmlunit/javascript/host/StyleSheetList.java:109-117 | Afterwards the key is cached and maps to the returned sheet. On a hit that is the cached sheet and nothing changes. On a miss it is a new sheet parsed from the key. |
| `Css.LookupOrParseConsistent` | src/main/java/com/gargoylesoftware/htmlunit/javascript/host/StyleSheetList.java:109-117 | Lookup-or-populate keeps the cache consistent and yields a sheet parsed from the key. |
| `Dom.Qualifying` | src/main/java/com/gargoylesoftware/htmlunit/javascript/host/StyleSheetList.java:76 | The list holds only style blocks and links whose lower-cased rel is exactly "stylesheet", all taken from the document. |
| `Dom.QualifyingLength` | src/main/java/com/gargoylesoftware/htmlunit/javascript/host/StyleSheetList.java:85-87 | The list's length is the number of the document's elements that pass the membership test. |
| `Dom.PositionOf` | src/main/java/com/gargoylesoftware/htmlunit/javascript/host/StyleSheetList.java:98 | Entry i of the list is a qualifying document element preceded by exactly i qualifying elements. |
| `Dom.ElementListedInOrder` | src/main/java/com/gargoylesoftware/htmlunit/javascript/host/StyleSheetList.java:76 | Every qualifying element of the document is in the list, at the index given by the number of qualifying elements before it. |
| `DocumentStyleSheets.ResolveItem` | src/main/java/com/gargoylesoftware/htmlunit/javascript/host/StyleSheetList.java:95-148 | Style block, keyed on its first child's text or "": a hit wraps the cached sheet and changes nothing; a miss parses the text with no URI and caches it under the key. Link: a failed fetch is a runtime error and changes nothing. A cached body is wrapped whatever the status. A miss parses the body, or "" for status 400 or more, with the response URL as source URI, and caches it under that text. |
| `DocumentStyleSheets.ItemKeepsCacheConsistent` | src/main/java/com/gargoylesoftware/htmlunit/javascript/host/StyleSheetList.java:105-139 | `item` keeps the cache consistent. The sheet it returns was parsed from the block's text or the link's body; only for an uncached error-status body is it parsed from "". |
| `DocumentStyleSheets.ErrorStatusReturnsCachedBody` | src/main/java/com/gargoylesoftware/htmlunit/javascript/host/StyleSheetList.java:124-130 | For a link with status 400 or more whose body is cached, `item` returns the sheet parsed from that body and changes nothing. |
| `DocumentStyleSheets.SameTextSharesSheet` | src/main/java/com/gargoylesoftware/htmlunit/javascript/host/StyleSheetList.java:105-116 | Two style blocks with equal text get the same parsed sheet; the second resolution leaves the cache as the first left it. |
| `DocumentStyleSheets.EqualKeySharesSheet` | src/main/java/com/gargoylesoftware/htmlunit/javascript/host/StyleSheetList.java:105-139 | Two list elements of any kind whose lookup text (block text or link body) is equal get the same parsed sheet, the second call changing nothing, unless the first is an error-status link whose non-empty body is not cached. |
| `DocumentStyleSheets.RepeatedItemIsCacheHit` | src/main/java/com/gargoylesoftware/htmlunit/javascript/host/StyleSheetList.java:95-148 | Repeating `item` on an unchanged element gives the same outcome and changes nothing, except for the uncached error-status link. |
| `DocumentStyleSheets.RepeatedErrorLinkReparses` | src/main/java/com/gargoylesoftware/htmlunit/javascript/host/StyleSheetList.java:124-139 | For a link with status 400 or more and an uncached non-empty body, two calls give two different empty sheets, and "" ends up cached to the second. |
| `DocumentStyleSheets.ItemKeepsOtherEntries` | src/main/java/com/gargoylesoftware/htmlunit/javascript/host/StyleSheetList.java:109-139 | `item` leaves every existing cache entry other than "" as it was; for a style block, a failed fetch or a status below 400 it leaves every existing entry as it was. |
| `DocumentStyleSheets.ErrorLinkDisplacesEmptyStyle` | src/main/java/com/gargoylesoftware/htmlunit/javascript/host/StyleSheetList.java:130-139 | An empty style block resolved before and after an error-status link whose non-empty body is not cached gets two different sheets; the second is the link's empty sheet. |
| `DocumentStyleSheets.StyleSheetList.constructor` | src/main/java/com/gargoylesoftware/htmlunit/javascript/host/StyleSheetList.java:68-78 | The list is bound to its document and to the CSS flag as it was at construction. |
| `DocumentStyleSheets.StyleSheetList.Nodes` | src/main/java/com/gargoylesoftware/htmlunit/javascript/host/StyleSheetList.java:72-77 | The live collection is the document's qualifying elements in document order if CSS was enabled at construction, and empty otherwise. |
| `DocumentStyleSheets.StyleSheetList.Length` | src/main/java/com/gargoylesoftware/htmlunit/javascript/host/StyleSheetList.java:85-87 | The length is 0 for every document state if CSS was disabled at construction; otherwise it is the number of qualifying elements. |
| `DocumentStyleSheets.StyleSheetList.Item` | src/main/java/com/gargoylesoftware/htmlunit/javascript/host/StyleSheetList.java:95-148 | What `item(index)` returns and the new cache and parser state are those of `ResolveItem` on the index-th element. Each returned wrapper is a new object. |
| `DocumentStyleSheets.StyleSheetList.Get` | src/main/java/com/gargoylesoftware/htmlunit/javascript/host/StyleSheetList.java:154-159 | Indexed access on the list itself is `item(index)`; for another start object it is left to the generic lookup and changes nothing. |
| `StyleElement.ResolveSheet` | src/main/java/com/gargoylesoftware/htmlunit/javascript/host/html/HTMLStyleElement.java:51-76 | A set memo is returned as is, cache untouched. Otherwise the key is the first child's text or "". A hit wraps the cached sheet and changes nothing; a miss parses the key, caches it, and wraps the new sheet. Either way the wrapper carries the page's request URL. |
| `StyleElement.MemoIgnoresText` | src/main/java/com/gargoylesoftware/htmlunit/javascript/host/html/HTMLStyleElement.java:52-54 | Once the memo is set, changing the element's text does not change what `sheet` returns. |
| `StyleElement.SheetKeepsCacheConsistent` | src/main/java/com/gargoylesoftware/htmlunit/javascript/host/html/HTMLStyleElement.java:56-73 | The first access keeps the cache consistent and wraps a sheet parsed from the element's text. |
| `StyleElement.SheetKeepsEntries` | src/main/java/com/gargoylesoftware/htmlunit/javascript/host/html/HTMLStyleElement.java:62-73 | The first `sheet` access leaves every existing cache entry as it was. |
| `StyleElement.HTMLStyleElement.constructor` | src/main/java/com/gargoylesoftware/htmlunit/javascript/host/html/HTMLStyleElement.java:37-44 | A new element starts with an empty memo slot. |
| `StyleElement.HTMLStyleElement.GetSheet` | src/main/java/com/gargoylesoftware/htmlunit/javascript/host/html/HTMLStyleElement.java:51-76 | Once the slot is set, the same object comes back and cache and parser are untouched. The first call stores a new wrapper in the slot, with the result and new state given by `ResolveSheet`. |
| `StyleElement.HTMLStyleElement.GetStyleSheet` | src/main/java/com/gargoylesoftware/htmlunit/javascript/host/html/HTMLStyleElement.java:82-84 | `styleSheet` has exactly the contract of `sheet`: it returns what `sheet` returns. |
| `Sharing.ListThenElementShareSheet` | src/main/java/com/gargoylesoftware/htmlunit/javascript/host/html/HTMLStyleElement.java:62-73 | After `item` on a style block, an element with the same text finds that sheet on first access and changes nothing. Only its wrapper carries the page URL. |
| `Sharing.ElementThenListShareSheet` | src/main/java/com/gargoylesoftware/htmlunit/javascript/host/StyleSheetList.java:109-111 | After an element's first `sheet` access, `item` on a style block with the same text is a hit on that sheet. |
| `Sharing.TwoIdenticalBlocksShareOneParse` | src/main/java/com/gargoylesoftware/htmlunit/javascript/host/StyleSheetList.java:95-117 | Two style blocks with the same text give length 2 and two distinct wrappers around one parsed sheet. The first block's script object, read before and after its text changes, gives the same wrapper both times, around that sheet but distinct from the wrapper `item` gave for the same element. |

## Left out

- Rhino plumbing (parent scope, prototype, the WebClient lookup chain, `Context.reportRuntimeError`, and `super.get(index, start)` in `get`): the CSS flag is a constructor parameter, cache and parser are method parameters, a reported error is the `RuntimeError` outcome, and the generic property lookup for another start object is modelled as `None`.
- The CSS parser (SAC input source, `Stylesheet` constructor internals, `Stylesheet.java`, which is not part of this model): parsing only records the text and source URI and yields a new sheet identity. A wrapper records the URI that was passed to its constructor.
- HTTP fetching: each link carries the result that fetching its href gives, either a response (status, body as text, response URL) or a failure. A failure of `getContentAsString` counts as a failure. Other exceptions the `catch` could see (from the cache or the parser) are not modelled.
- The XPath engine and `HTMLCollection`: replaced by the `Qualifying` filter over the document's elements in document order. `lower-case` folds ASCII letters only.
- `DocumentStyleSheets.StyleSheetList.Item`: requires `0 <= index < length`. Out-of-range behaviour belongs to `HTMLCollection.jsxFunction_item`, which is not part of this model.
- Logging of the error status (StyleSheetList.java line 133).
- Cache eviction: the cache is a plain map with get and put; `Store` replaces an existing entry.
- The DOM tree: a style block's first child is reduced to the text its `asText` gives. Other code changes a document's elements or an element's text by assigning the fields.
- Threading: the model is sequential.
