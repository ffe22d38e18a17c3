/**
 * Extraction of a YouTube video id from what the user typed into a deck's
 * URL field (src/lib/youtube.ts). Parsing the text as a URL (`new URL`, the
 * WHATWG URL Standard's "URL parsing" algorithm, with `URLSearchParams`
 * decoding) is not modelled: it is passed in as a function that yields the
 * hostname, the pathname and the query parameters, or nothing where the
 * standard throws.
 */
module YouTube {
  import opened Wrappers

  /** What the extraction reads of a parsed URL. Each query key maps to its first value. */
  datatype ParsedUrl = ParsedUrl(hostname: string, pathname: string, query: map<string, string>)

  /** White space and line terminators as `String.prototype.trim` removes them (ECMAScript). */
  predicate IsJsWhitespace(c: char) {
    || c == '\U{9}' || c == '\U{A}' || c == '\U{B}' || c == '\U{C}' || c == '\U{D}'
    || c == '\U{20}' || c == '\U{A0}' || c == '\U{1680}'
    || ('\U{2000}' <= c <= '\U{200A}')
    || c == '\U{2028}' || c == '\U{2029}' || c == '\U{202F}' || c == '\U{205F}' || c == '\U{3000}'
    || c == '\U{FEFF}'
  }

  predicate AllWhitespace(s: string) {
    forall i :: 0 <= i < |s| ==> IsJsWhitespace(s[i])
  }

  /** The index of the first character at or after `i` that is not white space (or |s|). */
  function SkipLeading(s: string, i: nat): (k: nat)
    requires i <= |s|
    decreases |s| - i
    ensures i <= k <= |s|
    ensures forall j :: i <= j < k ==> IsJsWhitespace(s[j])
    ensures k == |s| || !IsJsWhitespace(s[k])
  {
    if i < |s| && IsJsWhitespace(s[i]) then SkipLeading(s, i + 1) else i
  }

  /** The end of `s[lo..e]` once its trailing white space is cut off. */
  function SkipTrailing(s: string, lo: nat, e: nat): (k: nat)
    requires lo <= e <= |s|
    ensures lo <= k <= e
    ensures forall j :: k <= j < e ==> IsJsWhitespace(s[j])
    ensures k == lo || !IsJsWhitespace(s[k - 1])
  {
    if lo < e && IsJsWhitespace(s[e - 1]) then SkipTrailing(s, lo, e - 1) else e
  }

  /** How many white-space characters `s` starts with. */
  function LeadingWhitespace(s: string): (k: nat)
    ensures k <= |s|
  {
    SkipLeading(s, 0)
  }

  /**
   * `s.trim()`: the result is a contiguous piece of `s` that neither starts
   * nor ends with white space, and everything cut off is white space.
   */
  function Trim(s: string): (r: string)
    ensures var k := LeadingWhitespace(s);
      && k + |r| <= |s| && r == s[k..k + |r|]
      && (forall i :: 0 <= i < k ==> IsJsWhitespace(s[i]))
      && (forall i :: k + |r| <= i < |s| ==> IsJsWhitespace(s[i]))
    ensures r == [] || (!IsJsWhitespace(r[0]) && !IsJsWhitespace(r[|r| - 1]))
    ensures r == [] <==> AllWhitespace(s)
  {
    var a := SkipLeading(s, 0);
    var b := SkipTrailing(s, a, |s|);
    assert a == b ==> AllWhitespace(s);
    s[a..b]
  }

  /** Trimming keeps a text that neither starts nor ends with white space. */
  lemma TrimKeeps(s: string)
    requires s != [] && !IsJsWhitespace(s[0]) && !IsJsWhitespace(s[|s| - 1])
    ensures Trim(s) == s
  {
  }

  /** One character of `[a-zA-Z0-9_-]`. */
  predicate IsIdChar(c: char) {
    ('a' <= c <= 'z') || ('A' <= c <= 'Z') || ('0' <= c <= '9') || c == '_' || c == '-'
  }

  /** `VIDEO_ID_REGEX.test(s)` for `/^[a-zA-Z0-9_-]{11}$/`. */
  predicate IsVideoId(s: string): (b: bool)
    ensures b ==> |s| == 11 && forall i :: 0 <= i < |s| ==> s[i] != '/' && !IsJsWhitespace(s[i])
  {
    |s| == 11 && forall i :: 0 <= i < |s| ==> IsIdChar(s[i])
  }

  /** `s.includes(sub)`. */
  predicate Contains(s: string, sub: string) {
    exists i :: 0 <= i <= |s| - |sub| && LiteralAt(s, i, sub)
  }

  /** `s.slice(1)`. */
  function Slice1(s: string): (r: string)
    ensures s == [] ==> r == []
    ensures s != [] ==> r == s[1..]
  {
    if s == [] then [] else s[1..]
  }

  /** `s.split("/")[0]`: the text before the first slash, or all of it. */
  function FirstSegment(s: string): (r: string)
    ensures |r| <= |s| && r == s[..|r|]
    ensures forall i :: 0 <= i < |r| ==> r[i] != '/'
    ensures |r| < |s| ==> s[|r|] == '/'
  {
    if s == [] || s[0] == '/' then [] else [s[0]] + FirstSegment(s[1..])
  }

  /** An id has no slash, so it is its own first segment. */
  lemma FirstSegmentOfId(id: string)
    requires IsVideoId(id)
    ensures FirstSegment(id) == id
  {
    assert forall i :: 0 <= i < |id| ==> id[i] != '/';
  }

  /** Whether `p` holds `lit` starting at index `i`. */
  predicate LiteralAt(p: string, i: nat, lit: string) {
    i + |lit| <= |p| && p[i..i + |lit|] == lit
  }

  /** Whether eleven id characters start at index `j` of `p`. */
  predicate IdAt(p: string, j: nat) {
    j + 11 <= |p| && IsVideoId(p[j..j + 11])
  }

  /**
   * The regular expression `/\/(embed|shorts)\/([a-zA-Z0-9_-]{11})/` tried at
   * index `i` of the pathname: the `embed` branch first, then `shorts`; on
   * success, the second capture group.
   */
  function MatchAt(p: string, i: nat): (r: Option<string>)
    ensures r.Some? ==> IsVideoId(r.value) && i < |p| && p[i] == '/'
    ensures r.Some? ==> (LiteralAt(p, i, "/embed/") && IdAt(p, i + 7) && r.value == p[i + 7..i + 18])
                        || (LiteralAt(p, i, "/shorts/") && IdAt(p, i + 8) && r.value == p[i + 8..i + 19])
    ensures (LiteralAt(p, i, "/embed/") && IdAt(p, i + 7)) || (LiteralAt(p, i, "/shorts/") && IdAt(p, i + 8)) ==> r.Some?
  {
    if LiteralAt(p, i, "/embed/") && IdAt(p, i + 7) then Some(p[i + 7..i + 18])
    else if LiteralAt(p, i, "/shorts/") && IdAt(p, i + 8) then Some(p[i + 8..i + 19])
    else None
  }

  /** The leftmost index at or after `i` where the embed/shorts pattern matches. */
  function FirstMatchFrom(p: string, i: nat): (r: Option<nat>)
    decreases |p| - i
    ensures r.Some? ==> i <= r.value < |p| && MatchAt(p, r.value).Some?
    ensures r.Some? ==> forall k :: i <= k < r.value ==> MatchAt(p, k).None?
    ensures r.None? ==> forall k :: i <= k < |p| ==> MatchAt(p, k).None?
  {
    if i >= |p| then None
    else if MatchAt(p, i).Some? then Some(i)
    else FirstMatchFrom(p, i + 1)
  }

  /** `pathname.match(...)`, returning `match[2]` when there is a match. */
  function EmbedOrShortsId(p: string): (r: Option<string>)
    ensures r.Some? ==> IsVideoId(r.value)
  {
    match FirstMatchFrom(p, 0)
    case None => None
    case Some(j) => MatchAt(p, j)
  }

  /** What the `try` block decides once the trimmed text has parsed as a URL. */
  function FromUrl(url: ParsedUrl): (r: Option<string>)
    ensures r.Some? ==> IsVideoId(r.value)
  {
    if Contains(url.hostname, "youtube.com") && "v" in url.query then
      var id := url.query["v"];
      if id != "" && IsVideoId(id) then Some(id) else None
    else if url.hostname == "youtu.be" then
      var id := FirstSegment(Slice1(url.pathname));
      if IsVideoId(id) then Some(id) else None
    else if Contains(url.hostname, "youtube.com") then
      EmbedOrShortsId(url.pathname)
    else
      None
  }

  /**
   * `extractVideoId`. Empty or white-space-only input gives nothing; a
   * trimmed bare id is returned as it is; otherwise the trimmed text is
   * parsed as a URL (nothing when that throws) and read as a watch,
   * youtu.be, embed or shorts link. Whatever comes back is a well-formed id.
   */
  function ExtractVideoId(input: string, parse: string -> Option<ParsedUrl>): (r: Option<string>)
    ensures r.Some? ==> IsVideoId(r.value)
    ensures AllWhitespace(input) ==> r.None?
    ensures IsVideoId(Trim(input)) ==> r == Some(Trim(input))
  {
    var trimmed := Trim(input);
    if trimmed == "" then None
    else if IsVideoId(trimmed) then Some(trimmed)
    else match parse(trimmed)
      case None => None
      case Some(url) => FromUrl(url)
  }

  /** An id has no white space, so trimming leaves it as it is. */
  lemma TrimVideoId(id: string)
    requires IsVideoId(id)
    ensures Trim(id) == id
  {
    TrimKeeps(id);
  }

  /** Feeding an extracted id back in returns it unchanged, whatever the URL parser. */
  lemma ExtractIdempotent(input: string, parse: string -> Option<ParsedUrl>, parse': string -> Option<ParsedUrl>)
    requires ExtractVideoId(input, parse).Some?
    ensures ExtractVideoId(ExtractVideoId(input, parse).value, parse') == ExtractVideoId(input, parse)
  {
    var id := ExtractVideoId(input, parse).value;
    TrimVideoId(id);
  }

  /**
   * A watch link: a host containing "youtube.com" with a `v` parameter gives
   * that parameter when it is an id and nothing otherwise; the embed/shorts
   * pattern is not tried then.
   */
  lemma WatchLink(input: string, parse: string -> Option<ParsedUrl>, url: ParsedUrl)
    requires !AllWhitespace(input) && !IsVideoId(Trim(input)) && parse(Trim(input)) == Some(url)
    requires Contains(url.hostname, "youtube.com") && "v" in url.query
    ensures ExtractVideoId(input, parse) == if IsVideoId(url.query["v"]) then Some(url.query["v"]) else None
  {
  }

  /** A youtu.be link gives its first path segment when that is an id, and nothing otherwise. */
  lemma ShortLink(input: string, parse: string -> Option<ParsedUrl>, url: ParsedUrl)
    requires !AllWhitespace(input) && !IsVideoId(Trim(input)) && parse(Trim(input)) == Some(url)
    requires url.hostname == "youtu.be"
    ensures var seg := FirstSegment(Slice1(url.pathname));
      ExtractVideoId(input, parse) == if IsVideoId(seg) then Some(seg) else None
  {
    assert !Contains("youtu.be", "youtube.com");
  }

  /**
   * Any other host containing "youtube.com", without a `v` parameter: the
   * eleven id characters after the leftmost "/embed/" or "/shorts/" that is
   * followed by eleven id characters, and nothing when there is none.
   */
  lemma EmbedOrShortsLink(input: string, parse: string -> Option<ParsedUrl>, url: ParsedUrl)
    requires !AllWhitespace(input) && !IsVideoId(Trim(input)) && parse(Trim(input)) == Some(url)
    requires Contains(url.hostname, "youtube.com") && "v" !in url.query
    ensures var p := url.pathname; var r := ExtractVideoId(input, parse);
      && (r.None? <==> forall k :: 0 <= k < |p| ==> MatchAt(p, k).None?)
      && (r.Some? ==> exists j :: 0 <= j < |p| && r == MatchAt(p, j)
                                   && forall k :: 0 <= k < j ==> MatchAt(p, k).None?)
  {
    var p := url.pathname;
    match FirstMatchFrom(p, 0)
    case None =>
    case Some(j) =>
      assert ExtractVideoId(input, parse) == MatchAt(p, j);
  }

  /** Text that is neither a bare id nor a parseable URL gives nothing. */
  lemma NotAUrl(input: string, parse: string -> Option<ParsedUrl>)
    requires !IsVideoId(Trim(input)) && parse(Trim(input)).None?
    ensures ExtractVideoId(input, parse).None?
  {
  }

  /** Hosts other than youtu.be and those containing "youtube.com" give nothing. */
  lemma ForeignHost(input: string, parse: string -> Option<ParsedUrl>, url: ParsedUrl)
    requires !IsVideoId(Trim(input)) && parse(Trim(input)) == Some(url)
    requires !Contains(url.hostname, "youtube.com") && url.hostname != "youtu.be"
    ensures ExtractVideoId(input, parse).None?
  {
  }

  /** Worked examples: a bare id, and empty input. */
  lemma BareIdExample(parse: string -> Option<ParsedUrl>)
    ensures ExtractVideoId("dQw4w9WgXcQ", parse) == Some("dQw4w9WgXcQ")
    ensures ExtractVideoId("", parse).None?
  {
    TrimVideoId("dQw4w9WgXcQ");
  }

  /** Worked example: a youtu.be link. */
  lemma ShortLinkExample(parse: string -> Option<ParsedUrl>)
    requires parse("https://youtu.be/dQw4w9WgXcQ") == Some(ParsedUrl("youtu.be", "/dQw4w9WgXcQ", map[]))
    ensures ExtractVideoId("https://youtu.be/dQw4w9WgXcQ", parse) == Some("dQw4w9WgXcQ")
  {
    var s := "https://youtu.be/dQw4w9WgXcQ";
    TrimKeeps(s);
    assert IsVideoId("dQw4w9WgXcQ");
    assert Slice1("/dQw4w9WgXcQ") == "dQw4w9WgXcQ";
    FirstSegmentOfId("dQw4w9WgXcQ");
    ShortLink(s, parse, ParsedUrl("youtu.be", "/dQw4w9WgXcQ", map[]));
  }

  /** Worked example: a watch link with a further parameter. */
  lemma WatchLinkExample(parse: string -> Option<ParsedUrl>)
    requires parse("https://youtube.com/watch?v=dQw4w9WgXcQ&t=10")
      == Some(ParsedUrl("youtube.com", "/watch", map["v" := "dQw4w9WgXcQ", "t" := "10"]))
    ensures ExtractVideoId("https://youtube.com/watch?v=dQw4w9WgXcQ&t=10", parse) == Some("dQw4w9WgXcQ")
  {
    var s := "https://youtube.com/watch?v=dQw4w9WgXcQ&t=10";
    TrimKeeps(s);
    assert LiteralAt("youtube.com", 0, "youtube.com");
    assert IsVideoId("dQw4w9WgXcQ");
    WatchLink(s, parse, ParsedUrl("youtube.com", "/watch", map["v" := "dQw4w9WgXcQ", "t" := "10"]));
  }

  /** Worked example: text that does not parse as a URL. */
  lemma NotAUrlExample(parse: string -> Option<ParsedUrl>)
    requires parse("not a url").None?
    ensures ExtractVideoId("not a url", parse).None?
  {
    TrimKeeps("not a url");
  }
}
