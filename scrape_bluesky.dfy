/** `ScrapeBluesky`: the default file name, turning raw posts into rows, the time and language
    filters, and the `scrape` pipeline that chains them after the paginated search. */
module ScrapeBluesky {
  import opened Wrappers
  import opened Json
  import opened Seqs
  import opened Urls
  import Pagination

  /** The exceptions the modelled code lets escape. */
  datatype ScrapeError =
    | AttributeError         // `.get` on something that is not a dict
    | MissingColumn(name: string)  // a frame built from no records has no columns
    | DateParseError         // `pd.to_datetime` rejects a value
    | TypeError              // `re.sub` on a text cell that is not a string

  /** A `created_at` cell: as parsed from JSON, or after `pd.to_datetime` (instants are integers). */
  datatype Cell = Raw(value: Value) | Instant(t: int) | NaT

  /** One row of the posts frame: the nine columns of `parse_metadata`, and the `language` and
      `platform` columns the later steps add (None while absent). */
  datatype Row = Row(
    authorHandle: Value,
    authorDisplayName: Value,
    createdAt: Cell,
    text: Value,
    uri: Value,
    replyCount: Value,
    quoteCount: Value,
    repostCount: Value,
    embedType: Value,
    language: Option<string>,
    platform: Option<string>)

  // ---------------------------------------------------------------------------------------------
  // Default save file name

  /** The class `[a-zA-Z0-9]`. */
  predicate IsAsciiAlnum(c: char)
  {
    'a' <= c <= 'z' || 'A' <= c <= 'Z' || '0' <= c <= '9'
  }

  /** The characters a slug is made of. */
  predicate IsSlugChar(c: char)
  {
    'a' <= c <= 'z' || '0' <= c <= '9'
  }

  /** `str.lower` on the characters that survive the filter. */
  function ToLower(c: char): (d: char)
    ensures IsAsciiAlnum(c) ==> IsSlugChar(d)
  {
    if 'A' <= c <= 'Z' then (c as int + 32) as char else c
  }

  /** `re.sub(r'[^a-zA-Z0-9]', '', query).lower()`. */
  function Slug(query: string): (s: string)
    ensures |s| <= |query|
    ensures forall i :: 0 <= i < |s| ==> IsSlugChar(s[i])
  {
    if query == [] then []
    else (if IsAsciiAlnum(query[0]) then [ToLower(query[0])] else []) + Slug(query[1..])
  }

  /** The slug is the query's ASCII letters and digits, in order, lower-cased. */
  lemma {:induction false} SlugIsFilterThenLower(query: string)
    ensures var kept := Filter(query, IsAsciiAlnum);
      Slug(query) == seq(|kept|, i requires 0 <= i < |kept| => ToLower(kept[i]))
  {
    if query != [] {
      SlugIsFilterThenLower(query[1..]);
    }
  }

  /** The slug of a concatenation is the concatenation of the slugs. */
  lemma {:induction false} SlugAppend(a: string, b: string)
    ensures Slug(a + b) == Slug(a) + Slug(b)
  {
    if a == [] {
      assert a + b == b;
    } else {
      assert (a + b)[1..] == a[1..] + b;
      SlugAppend(a[1..], b);
    }
  }

  /** A query is its own slug exactly when it already consists of lower-case letters and digits. */
  lemma {:induction false} SlugFixedPoint(query: string)
    ensures Slug(query) == query <==> forall i :: 0 <= i < |query| ==> IsSlugChar(query[i])
  {
    if query != [] && IsSlugChar(query[0]) {
      SlugFixedPoint(query[1..]);
      if forall i :: 0 <= i < |query| ==> IsSlugChar(query[i]) {
        assert forall i :: 0 <= i < |query[1..]| ==> IsSlugChar(query[1..][i]) by {
          forall i | 0 <= i < |query[1..]| ensures IsSlugChar(query[1..][i]) {
            assert query[1..][i] == query[i + 1];
          }
        }
      }
    }
  }

  /** Slugging a slug changes nothing. */
  lemma SlugIdempotent(query: string)
    ensures Slug(Slug(query)) == Slug(query)
  {
    SlugFixedPoint(Slug(query));
  }

  /** `savefilename` as `scrape` settles it: the caller's, or `"bsky_"` and the slug of the query. */
  function SaveFilename(savefilename: Option<string>, query: string): (name: string)
    ensures savefilename.Some? ==> name == savefilename.value
    ensures savefilename.None? ==>
      |name| >= 5 && name[..5] == "bsky_" && forall i :: 5 <= i < |name| ==> IsSlugChar(name[i])
    ensures savefilename.None? ==> name == "bsky_" + Slug(query)
  {
    match savefilename
    case Some(name) => name
    case None => "bsky_" + Slug(query)
  }

  // ---------------------------------------------------------------------------------------------
  // parse_metadata

  /** The value at a key path, `None` as soon as a key is missing or a step is not an object. */
  function Lookup(v: Value, path: seq<string>): Value
  {
    if path == [] then v
    else match v
      case Obj(fields) => if path[0] in fields then Lookup(fields[path[0]], path[1..]) else Null
      case _ => Null
  }

  /** `d.get(key, default)`: raises unless `d` is a dict. */
  function Get(d: Value, key: string, default: Value): Result<Value, ScrapeError>
  {
    match d
    case Obj(fields) => Success(if key in fields then fields[key] else default)
    case _ => Failure(AttributeError)
  }

  /** `post.get(outer, {}).get(inner)`. */
  function GetNested(post: Value, outer: string, inner: string): Result<Value, ScrapeError>
  {
    match Get(post, outer, Obj(map[]))
    case Success(o) => Get(o, inner, Null)
    case Failure(e) => Failure(e)
  }

  /** `post.get(key, {})` is something `.get` can be called on: the key is missing or holds a dict. */
  predicate Nestable(post: Value, key: string)
    requires post.Obj?
  {
    key !in post.fields || post.fields[key].Obj?
  }

  /** The record `parse_metadata` builds from one post. It raises exactly when the post is not a
      dict or one of `author`, `record`, `embed` is present but not a dict (a JSON `null` there
      included); otherwise each field is read from its key path, `None` where a key is missing. */
  function ParsePost(post: Value): (r: Result<Row, ScrapeError>)
    ensures r.Success? <==>
      post.Obj? && Nestable(post, "author") && Nestable(post, "record") && Nestable(post, "embed")
    ensures r.Failure? ==> r.error == AttributeError
  {
    var handle := GetNested(post, "author", "handle");
    var displayName := GetNested(post, "author", "displayName");
    var createdAt := GetNested(post, "record", "createdAt");
    var text := GetNested(post, "record", "text");
    var uri := Get(post, "uri", Null);
    var replies := Get(post, "replyCount", Null);
    var quotes := Get(post, "quoteCount", Null);
    var reposts := Get(post, "repostCount", Null);
    var embedType := GetNested(post, "embed", "$type");
    if handle.Failure? || displayName.Failure? || createdAt.Failure? || text.Failure?
       || uri.Failure? || embedType.Failure?
    then Failure(AttributeError)
    else Success(Row(handle.value, displayName.value, Raw(createdAt.value), text.value, uri.value,
                     replies.value, quotes.value, reposts.value, embedType.value, None, None))
  }

  /** A `.get` chain on dicts reads the key path. */
  lemma GetNestedReadsPath(post: Value, outer: string, inner: string)
    requires post.Obj? && Nestable(post, outer)
    ensures GetNested(post, outer, inner) == Success(Lookup(post, [outer, inner]))
  {
    var path := [outer, inner];
    assert path[0] == outer && path[1..] == [inner];
    assert [inner][0] == inner && [inner][1..] == [];
    if outer in post.fields {
      var o := post.fields[outer];
      assert Lookup(post, path) == Lookup(o, [inner]);
      if inner in o.fields {
        assert Lookup(o, [inner]) == Lookup(o.fields[inner], []);
      }
    } else {
      assert Lookup(post, path) == Null;
    }
  }

  /** Each field of a parsed record is read from its key path, `None` where a key is missing:
      `embed_type` from `embed.$type`, `author_handle` from `author.handle`, and so on. */
  lemma ParsePostReadsPaths(post: Value)
    requires ParsePost(post).Success?
    ensures ParsePost(post).value == Row(
      Lookup(post, ["author", "handle"]), Lookup(post, ["author", "displayName"]),
      Raw(Lookup(post, ["record", "createdAt"])), Lookup(post, ["record", "text"]),
      Lookup(post, ["uri"]), Lookup(post, ["replyCount"]), Lookup(post, ["quoteCount"]),
      Lookup(post, ["repostCount"]), Lookup(post, ["embed", "$type"]), None, None)
  {
    GetNestedReadsPath(post, "author", "handle");
    GetNestedReadsPath(post, "author", "displayName");
    GetNestedReadsPath(post, "record", "createdAt");
    GetNestedReadsPath(post, "record", "text");
    GetNestedReadsPath(post, "embed", "$type");
    forall key: string ensures Lookup(post, [key]) == (if key in post.fields then post.fields[key] else Null) {
      assert [key][1..] == [];
    }
  }

  /** The records of all posts, or the first exception. */
  function ParseAll(posts: seq<Value>): (r: Result<seq<Row>, ScrapeError>)
    ensures r.Success? <==> forall i :: 0 <= i < |posts| ==> ParsePost(posts[i]).Success?
    ensures r.Success? ==>
      |r.value| == |posts| && forall i :: 0 <= i < |posts| ==> r.value[i] == ParsePost(posts[i]).value
    ensures r.Failure? ==> r.error == AttributeError
  {
    if posts == [] then Success([])
    else match ParsePost(posts[0])
      case Failure(e) => Failure(e)
      case Success(row) =>
        match ParseAll(posts[1..])
        case Failure(e) => Failure(e)
        case Success(rows) => Success([row] + rows)
  }

  /** `parse_metadata(posts_data)`: one record per post, in order. */
  method ParseMetadata(posts: seq<Value>) returns (outcome: Result<seq<Row>, ScrapeError>)
    ensures outcome == ParseAll(posts)
  {
    var parsed: seq<Row> := [];
    var i := 0;
    while i < |posts|
      invariant 0 <= i <= |posts|
      invariant forall j :: 0 <= j < i ==> ParsePost(posts[j]).Success?
      invariant |parsed| == i && forall j :: 0 <= j < i ==> parsed[j] == ParsePost(posts[j]).value
    {
      var record := ParsePost(posts[i]);
      if record.Failure? {
        assert ParseAll(posts).Failure?;
        return Failure(record.error);
      }
      parsed := parsed + [record.value];
      i := i + 1;
    }
    assert parsed == ParseAll(posts).value;
    return Success(parsed);
  }

  /** The record of the parsing test: nested handle and embed type come through. */
  lemma ParsePostExample(post: Value, author: Value, record: Value, embed: Value)
    requires author == Obj(map["handle" := Str("user1"), "displayName" := Str("User One")])
    requires record == Obj(map["createdAt" := Str("2025-01-01"), "text" := Str("Sample text")])
    requires embed == Obj(map["$type" := Str("image")])
    requires post == Obj(map["author" := author, "record" := record, "uri" := Str("at://test"),
                             "replyCount" := Num(2), "quoteCount" := Num(1), "repostCount" := Num(0),
                             "embed" := embed])
    ensures ParsePost(post).Success?
    ensures ParsePost(post).value.authorHandle == Str("user1")
    ensures ParsePost(post).value.embedType == Str("image")
  {
  }

  // ---------------------------------------------------------------------------------------------
  // filter_by_time

  /** A timestamp parser: the instant a value denotes, None where `pd.to_datetime` raises. */
  type DateParser = Value -> Option<int>

  /** `pd.to_datetime` on one cell: a JSON null becomes NaT, an instant stays as it is. */
  function ToDatetime(c: Cell, parse: DateParser): Option<Cell>
  {
    match c
    case Raw(Null) => Some(NaT)
    case Raw(v) => (match parse(v) case Some(t) => Some(Instant(t)) case None => None)
    case _ => Some(c)
  }

  /** Every `created_at` cell converts. */
  predicate ColumnConverts(rows: seq<Row>, parse: DateParser)
  {
    forall i :: 0 <= i < |rows| ==> ToDatetime(rows[i].createdAt, parse).Some?
  }

  /** The frame after its `created_at` column has been converted. */
  function Converted(rows: seq<Row>, parse: DateParser): (r: seq<Row>)
    requires ColumnConverts(rows, parse)
  {
    seq(|rows|, i requires 0 <= i < |rows| => rows[i].(createdAt := ToDatetime(rows[i].createdAt, parse).value))
  }

  /** The mask of `filter_by_time`: both bounds inclusive; NaT compares false with both. */
  predicate InWindow(c: Cell, start: int, end: int)
  {
    c.Instant? && start <= c.t <= end
  }

  /** The mask as a row predicate. */
  function WindowMask(start: int, end: int): Row -> bool
  {
    (r: Row) => InWindow(r.createdAt, start, end)
  }

  /** What `filter_by_time(df, date_start, date_end)` returns. */
  function TimeFiltered(rows: seq<Row>, parse: DateParser, dateStart: string, dateEnd: string)
    : Result<seq<Row>, ScrapeError>
  {
    if !ColumnConverts(rows, parse) then Failure(DateParseError)
    else match (parse(Str(dateStart)), parse(Str(dateEnd)))
      case (Some(start), Some(end)) =>
        Success(Filter(Converted(rows, parse), WindowMask(start, end)))
      case _ => Failure(DateParseError)
  }

  /** `filter_by_time`: overwrites the `created_at` column of the frame it is given (which stays
      overwritten even when a bound then fails to parse), and returns the rows inside the window. */
  method FilterByTime(rows: array<Row>, parse: DateParser, dateStart: string, dateEnd: string)
    returns (outcome: Result<seq<Row>, ScrapeError>)
    modifies rows
    ensures outcome == TimeFiltered(old(rows[..]), parse, dateStart, dateEnd)
    ensures rows[..] == if ColumnConverts(old(rows[..]), parse) then Converted(old(rows[..]), parse)
                        else old(rows[..])
  {
    if !ColumnConverts(rows[..], parse) {
      return Failure(DateParseError);
    }
    ghost var before := rows[..];
    forall i | 0 <= i < rows.Length {
      rows[i] := rows[i].(createdAt := ToDatetime(rows[i].createdAt, parse).value);
    }
    assert rows[..] == Converted(before, parse);
    var start := parse(Str(dateStart));
    var end := parse(Str(dateEnd));
    if start.None? || end.None? {
      return Failure(DateParseError);
    }
    return Success(Filter(rows[..], WindowMask(start.value, end.value)));
  }

  /** `filter_by_time` keeps exactly the rows whose converted `created_at` lies in the window, both
      ends included, and rows whose `created_at` was null never survive. */
  lemma {:induction false} TimeFilterKeepsWindow(rows: seq<Row>, parse: DateParser, dateStart: string, dateEnd: string)
    requires TimeFiltered(rows, parse, dateStart, dateEnd).Success?
    ensures parse(Str(dateStart)).Some? && parse(Str(dateEnd)).Some?
    ensures var kept := TimeFiltered(rows, parse, dateStart, dateEnd).value;
      var start, end := parse(Str(dateStart)).value, parse(Str(dateEnd)).value;
      && (forall r :: r in kept ==> InWindow(r.createdAt, start, end))
      && (forall i :: 0 <= i < |rows| ==>
            (Converted(rows, parse)[i] in kept <==> InWindow(Converted(rows, parse)[i].createdAt, start, end)))
      && (forall i :: 0 <= i < |rows| && rows[i].createdAt == Raw(Null) ==> Converted(rows, parse)[i] !in kept)
  {
    var start, end := parse(Str(dateStart)).value, parse(Str(dateEnd)).value;
    var conv := Converted(rows, parse);
    forall i | 0 <= i < |rows| && rows[i].createdAt == Raw(Null)
      ensures conv[i].createdAt == NaT
    {
    }
  }

  /** The time-filter test: of three dates, the one before the window goes and the two inside stay. */
  lemma TimeFilterExample(rows: seq<Row>, parse: DateParser, dateStart: string, dateEnd: string,
                          v0: Value, v1: Value, v2: Value)
    requires |rows| == 3 && rows[0].createdAt == Raw(v0) && rows[1].createdAt == Raw(v1)
             && rows[2].createdAt == Raw(v2)
    requires v0 != Null && v1 != Null && v2 != Null
    requires parse(Str(dateStart)) == Some(0) && parse(Str(dateEnd)) == Some(201)
    requires parse(v0) == Some(4) && parse(v1) == Some(-1) && parse(v2) == Some(165)
    ensures TimeFiltered(rows, parse, dateStart, dateEnd).Success?
    ensures |TimeFiltered(rows, parse, dateStart, dateEnd).value| == 2
  {
    var conv := Converted(rows, parse);
    var p := WindowMask(0, 201);
    assert ColumnConverts(rows, parse);
    assert conv[0].createdAt == Instant(4) && conv[1].createdAt == Instant(-1) && conv[2].createdAt == Instant(165);
    assert conv == [conv[0]] + [conv[1]] + [conv[2]];
    FilterAppend([conv[0]] + [conv[1]], [conv[2]], p);
    FilterAppend([conv[0]], [conv[1]], p);
    assert Filter([conv[0]], p) == [conv[0]];
    assert Filter([conv[1]], p) == [];
    assert Filter([conv[2]], p) == [conv[2]];
  }

  // ---------------------------------------------------------------------------------------------
  // filter_by_language

  /** A language detector: the language code it names, None where it raises. */
  type Detector = string -> Option<string>

  /** `_detect_language`: the detector's answer, `"na"` when it raises. */
  function DetectLanguage(detect: Detector, text: string): (lang: string)
    ensures detect(text).Some? ==> lang == detect(text).value
    ensures detect(text).None? ==> lang == "na"
  {
    match detect(text)
    case Some(code) => code
    case None => "na"
  }

  /** Every `text` cell is a string, so `re.sub` accepts it. */
  predicate TextsAreStrings(rows: seq<Row>)
  {
    forall i :: 0 <= i < |rows| ==> rows[i].text.Str?
  }

  /** One row after `filter_by_language` has overwritten `text` and added `language`. */
  function Relabelled(row: Row, detect: Detector): Row
    requires row.text.Str?
  {
    var stripped := StripUrls(row.text.s);
    row.(text := Str(stripped), language := Some(DetectLanguage(detect, stripped)))
  }

  /** The frame after `filter_by_language` has overwritten `text` and added `language`. */
  function RelabelledAll(rows: seq<Row>, detect: Detector): seq<Row>
    requires TextsAreStrings(rows)
  {
    seq(|rows|, i requires 0 <= i < |rows| => Relabelled(rows[i], detect))
  }

  /** The mask of `filter_by_language`. */
  predicate IsEnglish(row: Row)
  {
    row.language == Some("en")
  }

  /** What `filter_by_language(df)` returns. */
  function LanguageFiltered(rows: seq<Row>, detect: Detector): Result<seq<Row>, ScrapeError>
  {
    if !TextsAreStrings(rows) then Failure(TypeError)
    else Success(Filter(RelabelledAll(rows, detect), IsEnglish))
  }

  /** `filter_by_language`: strips URLs from every text and tags every row with its detected
      language, in the frame it is given, then returns the rows tagged `"en"`. A text that is not a
      string makes `re.sub` raise before anything is written. */
  method FilterByLanguage(rows: array<Row>, detect: Detector) returns (outcome: Result<seq<Row>, ScrapeError>)
    modifies rows
    ensures outcome == LanguageFiltered(old(rows[..]), detect)
    ensures rows[..] == if TextsAreStrings(old(rows[..])) then RelabelledAll(old(rows[..]), detect)
                        else old(rows[..])
  {
    if !TextsAreStrings(rows[..]) {
      return Failure(TypeError);
    }
    ghost var before := rows[..];
    forall i | 0 <= i < rows.Length {
      rows[i] := rows[i].(text := Str(StripUrls(rows[i].text.s)));
    }
    forall i | 0 <= i < rows.Length {
      rows[i] := rows[i].(language := Some(DetectLanguage(detect, rows[i].text.s)));
    }
    assert rows[..] == RelabelledAll(before, detect);
    return Success(Filter(rows[..], IsEnglish));
  }

  /** Every row `filter_by_language` returns is tagged `"en"` and holds a URL-free text; a row of
      the input is kept exactly when the detector names English for its URL-free text. */
  lemma LanguageFilterKeepsEnglish(rows: seq<Row>, detect: Detector)
    requires TextsAreStrings(rows)
    ensures var kept := LanguageFiltered(rows, detect).value;
      && (forall r :: r in kept ==> r.language == Some("en") && r.text.Str? && UrlFree(r.text.s))
      && (forall i :: 0 <= i < |rows| ==>
            (RelabelledAll(rows, detect)[i] in kept <==> detect(StripUrls(rows[i].text.s)) == Some("en")))
  {
    var all := RelabelledAll(rows, detect);
    forall r | r in all
      ensures r.text.Str? && UrlFree(r.text.s)
    {
      var i :| 0 <= i < |all| && all[i] == r;
      StripUrlsIsUrlFree(rows[i].text.s);
    }
    forall i | 0 <= i < |rows|
      ensures IsEnglish(all[i]) <==> detect(StripUrls(rows[i].text.s)) == Some("en")
    {
      var stripped := StripUrls(rows[i].text.s);
      if detect(stripped).None? {
        assert DetectLanguage(detect, stripped) == "na";
      }
    }
  }

  // ---------------------------------------------------------------------------------------------
  // scrape

  /** `df_posts["platform"] = "bluesky"`. */
  function Tagged(rows: seq<Row>): seq<Row>
  {
    seq(|rows|, i requires 0 <= i < |rows| => rows[i].(platform := Some("bluesky")))
  }

  /** The frame `scrape` ends with, from the posts the search returned: parse, keep the time window,
      keep English, tag the platform. An empty search leaves a frame without columns, so the
      time filter's lookup of `created_at` raises. */
  function Pipeline(posts: seq<Value>, parse: DateParser, detect: Detector, dateStart: string, dateEnd: string)
    : Result<seq<Row>, ScrapeError>
  {
    match ParseAll(posts)
    case Failure(e) => Failure(e)
    case Success(rows) =>
      if rows == [] then Failure(MissingColumn("created_at"))
      else match TimeFiltered(rows, parse, dateStart, dateEnd)
        case Failure(e) => Failure(e)
        case Success(inWindow) =>
          match LanguageFiltered(inWindow, detect)
          case Failure(e) => Failure(e)
          case Success(english) => Success(Tagged(english))
  }

  /** A fresh frame holding `rows`. */
  method NewFrame(rows: seq<Row>) returns (frame: array<Row>)
    ensures fresh(frame) && frame[..] == rows
  {
    frame := new Row[|rows|](i requires 0 <= i < |rows| => rows[i]);
  }

  /** `df_posts["platform"] = "bluesky"` on a frame. */
  method TagPlatform(rows: array<Row>)
    modifies rows
    ensures rows[..] == Tagged(old(rows[..]))
  {
    forall i | 0 <= i < rows.Length {
      rows[i] := rows[i].(platform := Some("bluesky"));
    }
  }

  /** The frame and the save name, or the exception. */
  function WithName(frame: Result<seq<Row>, ScrapeError>, name: string): Result<(seq<Row>, string), ScrapeError>
  {
    match frame
    case Success(rows) => Success((rows, name))
    case Failure(e) => Failure(e)
  }

  /** `scrape(query, savefilename, stream=True, date_start, date_end)`: the final frame and the file
      name it would be saved under, or the exception raised on the way. */
  method Scrape(server: Pagination.Server, parse: DateParser, detect: Detector, query: string,
                savefilename: Option<string>, n: int, dateStart: string, dateEnd: string)
    returns (outcome: Result<(seq<Row>, string), ScrapeError>)
    ensures outcome == WithName(Pipeline(Pagination.Collected(Pagination.Trace(server, query, n)), parse, detect,
                                         dateStart, dateEnd),
                                SaveFilename(savefilename, query))
  {
    var name := SaveFilename(savefilename, query);
    var posts := Pagination.SearchPosts(server, query, n);
    var parsed := ParseMetadata(posts);
    if parsed.Failure? {
      return Failure(parsed.error);
    }
    if parsed.value == [] {
      return Failure(MissingColumn("created_at"));
    }
    var frame := NewFrame(parsed.value);
    var timed := FilterByTime(frame, parse, dateStart, dateEnd);
    if timed.Failure? {
      return Failure(timed.error);
    }
    var kept := NewFrame(timed.value);
    var english := FilterByLanguage(kept, detect);
    if english.Failure? {
      return Failure(english.error);
    }
    var final := NewFrame(english.value);
    TagPlatform(final);
    return Success((final[..], name));
  }

  /** What `scrape` promises about its rows: there are no more of them than posts the search
      returned, and each is tagged `bluesky`, was classified English, has a URL-free text and a
      `created_at` inside the window (both bounds parsed). A search that returns nothing fails on
      the missing column. */
  lemma {:induction false} PipelineRows(posts: seq<Value>, parse: DateParser, detect: Detector,
                                        dateStart: string, dateEnd: string)
    ensures posts == [] ==> Pipeline(posts, parse, detect, dateStart, dateEnd) == Failure(MissingColumn("created_at"))
    ensures var out := Pipeline(posts, parse, detect, dateStart, dateEnd);
      out.Success? ==>
        && parse(Str(dateStart)).Some? && parse(Str(dateEnd)).Some?
        && |out.value| <= |posts|
        && forall r :: r in out.value ==>
             && r.platform == Some("bluesky")
             && r.language == Some("en")
             && r.text.Str? && UrlFree(r.text.s)
             && InWindow(r.createdAt, parse(Str(dateStart)).value, parse(Str(dateEnd)).value)
  {
    var out := Pipeline(posts, parse, detect, dateStart, dateEnd);
    if out.Success? {
      var rows := ParseAll(posts).value;
      var inWindow := TimeFiltered(rows, parse, dateStart, dateEnd).value;
      var english := LanguageFiltered(inWindow, detect).value;
      TimeFilterKeepsWindow(rows, parse, dateStart, dateEnd);
      LanguageFilterKeepsEnglish(inWindow, detect);
      var start, end := parse(Str(dateStart)).value, parse(Str(dateEnd)).value;
      forall r | r in out.value
        ensures r.platform == Some("bluesky") && r.language == Some("en")
        ensures r.text.Str? && UrlFree(r.text.s) && InWindow(r.createdAt, start, end)
      {
        var i :| 0 <= i < |out.value| && out.value[i] == r;
        var e := english[i];
        assert e in english;
        var j :| 0 <= j < |RelabelledAll(inWindow, detect)| && RelabelledAll(inWindow, detect)[j] == e;
        assert inWindow[j] in inWindow;
      }
    }
  }
}
