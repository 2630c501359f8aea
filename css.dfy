/**
 * The parse cache shared by every document of a web client, and the CSS
 * parser seen from outside: parsing allocates a new parsed sheet whose
 * identity is its position in the parser's log.
 */
module Css {
  import opened Wrappers

  /** Identity of a parsed style sheet: its index in the parser's log. */
  type SheetId = nat

  /** What the parser was handed: the CSS text and the InputSource's URI. */
  datatype Parsed = Parsed(text: string, sourceUri: Option<string>)

  /** The shared state: the cache entries, keyed on CSS text, and every sheet parsed so far. */
  datatype State = State(cache: map<string, SheetId>, parsed: seq<Parsed>)

  /** Every cached sheet exists and was parsed from exactly the text it is cached under. */
  predicate Consistent(s: State) {
    forall k :: k in s.cache ==> s.cache[k] < |s.parsed| && s.parsed[s.cache[k]].text == k
  }

  /** The cache (an external class with get and put, whose eviction is not modelled). */
  class Cache {
    var sheets: map<string, SheetId>

    constructor ()
      ensures sheets == map[]
    {
      sheets := map[];
    }

    /** `getCachedStyleSheet`: the sheet cached under `css`, if any. */
    method GetCachedStyleSheet(css: string) returns (r: Option<SheetId>)
      ensures r.Some? <==> css in sheets
      ensures r.Some? ==> r.value == sheets[css]
    {
      if css in sheets {
        r := Some(sheets[css]);
      } else {
        r := None;
      }
    }

    /** `cache(css, sheet)`: stores `sheet` under `css`, replacing any earlier entry. */
    method Store(css: string, sheet: SheetId)
      modifies this
      ensures sheets == old(sheets)[css := sheet]
    {
      sheets := sheets[css := sheet];
    }
  }

  /** The CSS parser, reduced to the log of what it was asked to parse. */
  class Parser {
    var parsed: seq<Parsed>

    constructor ()
      ensures parsed == []
    {
      parsed := [];
    }

    /** Parses `css` read from a source with URI `sourceUri`: a sheet no one has seen before. */
    method Parse(css: string, sourceUri: Option<string>) returns (id: SheetId)
      modifies this
      ensures id == |old(parsed)|
      ensures parsed == old(parsed) + [Parsed(css, sourceUri)]
    {
      id := |parsed|;
      parsed := parsed + [Parsed(css, sourceUri)];
    }
  }

  /** The shared state as held by a cache and a parser. */
  function Snapshot(cache: Cache, parser: Parser): State
    reads cache, parser
  {
    State(cache.sheets, parser.parsed)
  }

  /** A sheet and the shared state after obtaining it. */
  datatype Step = Step(sheet: SheetId, post: State)

  /** Parses `css` from a source with URI `sourceUri` and caches the new sheet under `css`. */
  function ParseAndStore(s: State, css: string, sourceUri: Option<string>): (r: Step)
    ensures r.sheet == |s.parsed| && r.post.parsed == s.parsed + [Parsed(css, sourceUri)]
    ensures r.post.cache == s.cache[css := r.sheet]
    ensures Consistent(s) ==>
      Consistent(r.post) && r.post.parsed[r.sheet].text == css &&
      forall k :: k in s.cache ==> s.cache[k] != r.sheet
  {
    var id := |s.parsed|;
    Step(id, State(s.cache[css := id], s.parsed + [Parsed(css, sourceUri)]))
  }

  /**
   * The lookup-or-populate step shared by both access paths: the cached sheet
   * for `key` if there is one, otherwise a new sheet parsed from `key`.
   */
  function LookupOrParse(s: State, key: string, sourceUri: Option<string>): (r: Step)
    ensures key in r.post.cache && r.post.cache[key] == r.sheet
    ensures key in s.cache ==> r == Step(s.cache[key], s)
    ensures key !in s.cache ==> r == ParseAndStore(s, key, sourceUri)
  {
    if key in s.cache then Step(s.cache[key], s) else ParseAndStore(s, key, sourceUri)
  }

  /** Looking up or parsing keeps the cache consistent and yields a sheet parsed from the key. */
  lemma LookupOrParseConsistent(s: State, key: string, sourceUri: Option<string>)
    requires Consistent(s)
    ensures var r := LookupOrParse(s, key, sourceUri);
      Consistent(r.post) && r.sheet < |r.post.parsed| && r.post.parsed[r.sheet].text == key
  {
  }
}
