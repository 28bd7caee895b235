/** The route-aware content store of `website/src/core/persistence.rs`.

    The file system is a map from path to entry: a missing key is a file that does not
    exist, `Unreadable` is a file whose read fails for any other reason, and `Text` is a
    file that reads as text. Every read operation is a function of the current map (so
    nothing is cached and nothing is mutated), returning its value together with the
    diagnostics it writes to stderr. JSON (de)serialisation is a `Codec` value; what the
    store relies on about it is the predicate `RoundTrips`, taken as an explicit
    precondition wherever it is needed. The write operations are methods of `Store`,
    whose `disk` field they update. */
module Persistence {
  import opened Wrappers
  import Blocks
  import Homepage

  /** Location of the route index. */
  const RoutesPath: string := "data/routes.json"

  /** The route name the homepage helpers use. */
  const HomepageRoute: string := "homepage"

  /** One entry of the route index: URL path, route name and content file paths. */
  datatype Route = Route(path: string, name: string, blockIds: seq<string>)

  /** What reading an existing path yields. */
  datatype FileEntry = Unreadable | Text(contents: string)

  type Disk = map<string, FileEntry>

  datatype Error =
    | RouteNotFound(route: string)   // no route of that name in the index
    | NoBlockIds(route: string)      // the first route of that name lists no content file
    | SerializationError             // the JSON encoder refused the value
    | IoError                        // the file write failed

  /** A line written to stderr by the read path. */
  datatype Diagnostic =
    | RoutesReadFailed
    | RoutesParseFailed
    | RouteUnresolved(error: Error)
    | ContentReadFailed(path: string)
    | ContentParseFailed(path: string)

  /** A read result together with the diagnostics produced while computing it. */
  datatype Traced<+T> = Traced(value: T, log: seq<Diagnostic>)

  /** The JSON facility: parsing yields `None` on malformed or mis-shaped input, rendering
      yields `None` when the encoder fails. */
  datatype Codec = Codec(
    parseContent: string -> Option<Homepage.HomepageData>,
    renderContent: Homepage.HomepageData -> Option<string>,
    parseRoutes: string -> Option<seq<Route>>,
    renderRoutes: seq<Route> -> Option<string>)

  /** The assumption about the JSON facility: whatever it renders parses back to the same
      value, and a rendered route index (a JSON array) is never blank. */
  ghost predicate RoundTrips(json: Codec) {
    && (forall d :: json.renderContent(d).Some? ==>
          json.parseContent(json.renderContent(d).value) == Some(d))
    && (forall rs :: json.renderRoutes(rs).Some? ==>
          && json.parseRoutes(json.renderRoutes(rs).value) == Some(rs)
          && !IsBlank(json.renderRoutes(rs).value))
  }

  // ---------------------------------------------------------------------------
  // Whitespace trimming, as `str::trim` does it
  // ---------------------------------------------------------------------------

  /** The characters with the Unicode White_Space property. */
  predicate IsWhitespace(c: char) {
    || ('\t' <= c <= '\r')
    || c == ' '
    || c == '\U{0085}'
    || c == '\U{00A0}'
    || c == '\U{1680}'
    || ('\U{2000}' <= c <= '\U{200A}')
    || c == '\U{2028}'
    || c == '\U{2029}'
    || c == '\U{202F}'
    || c == '\U{205F}'
    || c == '\U{3000}'
  }

  predicate IsBlank(s: string) {
    forall i :: 0 <= i < |s| ==> IsWhitespace(s[i])
  }

  /** Drops the leading whitespace. */
  function TrimStart(s: string): (r: string)
    ensures |r| <= |s| && r == s[|s| - |r|..]
    ensures forall i :: 0 <= i < |s| - |r| ==> IsWhitespace(s[i])
    ensures r != [] ==> !IsWhitespace(r[0])
  {
    if s != [] && IsWhitespace(s[0]) then TrimStart(s[1..]) else s
  }

  /** Drops the trailing whitespace. */
  function TrimEnd(s: string): (r: string)
    ensures |r| <= |s| && r == s[..|r|]
    ensures forall i :: |r| <= i < |s| ==> IsWhitespace(s[i])
    ensures r != [] ==> !IsWhitespace(r[|r| - 1])
  {
    if s != [] && IsWhitespace(s[|s| - 1]) then
      TrimEnd(s[..|s| - 1])
    else
      s
  }

  function Trim(s: string): string {
    TrimEnd(TrimStart(s))
  }

  /** `s.trim().is_empty()` holds exactly for the blank strings. */
  lemma TrimEmptyIffBlank(s: string)
    ensures Trim(s) == [] <==> IsBlank(s)
  {
  }

  // ---------------------------------------------------------------------------
  // The route index
  // ---------------------------------------------------------------------------

  /** The index used when none can be read: the homepage at "/". */
  function DefaultRoutes(): (rs: seq<Route>)
    ensures |rs| == 1
    ensures rs[0].path == "/" && rs[0].name == HomepageRoute
    ensures rs[0].blockIds == ["data/content/homepage.json"]
  {
    [Route("/", HomepageRoute, ["data/content/homepage.json"])]
  }

  /** The routes file exists, reads as non-blank text, and that text parses to `rs`. */
  ghost predicate RoutesFileHolds(json: Codec, disk: Disk, rs: seq<Route>) {
    && RoutesPath in disk
    && disk[RoutesPath].Text?
    && !IsBlank(disk[RoutesPath].contents)
    && json.parseRoutes(disk[RoutesPath].contents) == Some(rs)
  }

  /** `load_routes`: the parsed index, or the default index whenever the file is missing,
      unreadable, blank or unparseable. Only an unreadable or unparseable file is logged. */
  function LoadRoutes(json: Codec, disk: Disk): (r: Traced<seq<Route>>)
    ensures forall rs :: RoutesFileHolds(json, disk, rs) ==> r.value == rs
    ensures (forall rs :: !RoutesFileHolds(json, disk, rs)) ==> r.value == DefaultRoutes()
    ensures r.log == [RoutesReadFailed] <==> RoutesPath in disk && disk[RoutesPath].Unreadable?
    ensures r.log == [RoutesParseFailed] <==>
              && RoutesPath in disk && disk[RoutesPath].Text?
              && !IsBlank(disk[RoutesPath].contents)
              && json.parseRoutes(disk[RoutesPath].contents).None?
    ensures r.log == [] || r.log == [RoutesReadFailed] || r.log == [RoutesParseFailed]
  {
    if RoutesPath !in disk then
      Traced(DefaultRoutes(), [])
    else
      match disk[RoutesPath]
      case Unreadable => Traced(DefaultRoutes(), [RoutesReadFailed])
      case Text(contents) =>
        TrimEmptyIffBlank(contents);
        if Trim(contents) == [] then
          Traced(DefaultRoutes(), [])
        else
          match json.parseRoutes(contents)
          case None => Traced(DefaultRoutes(), [RoutesParseFailed])
          case Some(rs) =>
            assert RoutesFileHolds(json, disk, rs);
            Traced(rs, [])
  }

  // ---------------------------------------------------------------------------
  // Route resolution
  // ---------------------------------------------------------------------------

  /** Index `i` holds the first route named `name`. */
  ghost predicate IsFirstNamed(routes: seq<Route>, name: string, i: int) {
    && 0 <= i < |routes|
    && routes[i].name == name
    && forall j :: 0 <= j < i ==> routes[j].name != name
  }

  /** The position `iter().find` stops at: the first route named `name`, or `|routes|`. */
  function FindByName(routes: seq<Route>, name: string): (k: nat)
    ensures k <= |routes|
    ensures forall j :: 0 <= j < k ==> routes[j].name != name
    ensures k < |routes| ==> routes[k].name == name
  {
    if routes == [] then 0
    else if routes[0].name == name then 0
    else 1 + FindByName(routes[1..], name)
  }

  lemma FirstNamedIsFound(routes: seq<Route>, name: string, i: int)
    requires IsFirstNamed(routes, name, i)
    ensures i == FindByName(routes, name)
  {
  }

  /** The route-lookup step of `get_content_path`: the first content path of the first
      route named `name`; later routes of that name and later paths are ignored. */
  function Resolve(routes: seq<Route>, name: string): (r: Result<string, Error>)
    ensures r.Ok? <==> exists i :: IsFirstNamed(routes, name, i) && routes[i].blockIds != []
    ensures forall i :: IsFirstNamed(routes, name, i) && routes[i].blockIds != [] ==>
              r == Ok(routes[i].blockIds[0])
    ensures r == Err(RouteNotFound(name)) <==> forall i :: 0 <= i < |routes| ==> routes[i].name != name
    ensures r == Err(NoBlockIds(name)) <==>
              exists i :: IsFirstNamed(routes, name, i) && routes[i].blockIds == []
    ensures r.Ok? || r == Err(RouteNotFound(name)) || r == Err(NoBlockIds(name))
  {
    var k := FindByName(routes, name);
    if k == |routes| then
      Err(RouteNotFound(name))
    else
      assert IsFirstNamed(routes, name, k);
      assert forall i :: IsFirstNamed(routes, name, i) ==> i == k by {
        forall i | IsFirstNamed(routes, name, i) ensures i == k {
          FirstNamedIsFound(routes, name, i);
        }
      }
      if routes[k].blockIds == [] then Err(NoBlockIds(name))
      else Ok(routes[k].blockIds[0])
  }

  /** Routes appended after a route of that name never change what it resolves to. */
  lemma {:induction false} ResolveIgnoresLaterRoutes(routes: seq<Route>, extra: seq<Route>, name: string)
    requires exists i :: 0 <= i < |routes| && routes[i].name == name
    ensures Resolve(routes + extra, name) == Resolve(routes, name)
  {
    FindIgnoresLaterRoutes(routes, extra, name);
  }

  lemma {:induction false} FindIgnoresLaterRoutes(routes: seq<Route>, extra: seq<Route>, name: string)
    requires exists i :: 0 <= i < |routes| && routes[i].name == name
    ensures FindByName(routes + extra, name) == FindByName(routes, name)
  {
    if routes[0].name != name {
      var i :| 0 <= i < |routes| && routes[i].name == name;
      assert routes[1..][i - 1].name == name;
      assert (routes + extra)[1..] == routes[1..] + extra;
      FindIgnoresLaterRoutes(routes[1..], extra, name);
    }
  }

  /** `get_content_path`: re-reads the route index, then resolves `name` in it. */
  function ContentPath(json: Codec, disk: Disk, name: string): (r: Traced<Result<string, Error>>)
    ensures forall rs :: RoutesFileHolds(json, disk, rs) ==> r.value == Resolve(rs, name)
    ensures (forall rs :: !RoutesFileHolds(json, disk, rs)) ==> r.value == Resolve(DefaultRoutes(), name)
    ensures r.log == LoadRoutes(json, disk).log
  {
    var routes := LoadRoutes(json, disk);
    Traced(Resolve(routes.value, name), routes.log)
  }

  /** With no usable route index, "homepage" resolves to its default content file. */
  lemma DefaultIndexResolvesHomepage(json: Codec, disk: Disk)
    requires forall rs :: !RoutesFileHolds(json, disk, rs)
    ensures ContentPath(json, disk, HomepageRoute).value == Ok("data/content/homepage.json")
  {
  }

  // ---------------------------------------------------------------------------
  // Reading content
  // ---------------------------------------------------------------------------

  /** `name` resolves to a file that exists, reads as text, and parses to `d`. */
  ghost predicate ContentFileHolds(json: Codec, disk: Disk, name: string, d: Homepage.HomepageData) {
    var resolved := ContentPath(json, disk, name).value;
    && resolved.Ok?
    && resolved.value in disk
    && disk[resolved.value].Text?
    && json.parseContent(disk[resolved.value].contents) == Some(d)
  }

  /** `load_blocks`: the stored blocks of route `name`, or the empty list whenever the route
      does not resolve or its file is missing, unreadable or unparseable. */
  function LoadBlocks(json: Codec, disk: Disk, name: string): (r: Traced<seq<Blocks.BlockWithId>>)
    ensures r.value == [] || ContentFileHolds(json, disk, name, Homepage.HomepageData(r.value))
    ensures forall d :: ContentFileHolds(json, disk, name, d) ==> r.value == d.blocks
    ensures |ContentPath(json, disk, name).log| <= |r.log| <= |ContentPath(json, disk, name).log| + 1
    ensures r.log[..|ContentPath(json, disk, name).log|] == ContentPath(json, disk, name).log
  {
    var resolved := ContentPath(json, disk, name);
    match resolved.value
    case Err(e) => Traced([], resolved.log + [RouteUnresolved(e)])
    case Ok(path) =>
      if path !in disk then
        Traced([], resolved.log)
      else
        match disk[path]
        case Unreadable => Traced([], resolved.log + [ContentReadFailed(path)])
        case Text(contents) =>
          match json.parseContent(contents)
          case None => Traced([], resolved.log + [ContentParseFailed(path)])
          case Some(d) => Traced(d.blocks, resolved.log)
  }

  /** Which failure of the read path is logged: all but a missing content file. */
  lemma LoadBlocksDiagnostics(json: Codec, disk: Disk, name: string)
    ensures var resolved, r := ContentPath(json, disk, name), LoadBlocks(json, disk, name);
      && (resolved.value.Err? ==> r.log == resolved.log + [RouteUnresolved(resolved.value.error)])
      && (resolved.value.Ok? && resolved.value.value !in disk ==>
            r.value == [] && r.log == resolved.log)
      && (resolved.value.Ok? && resolved.value.value in disk &&
          disk[resolved.value.value].Unreadable? ==>
            r.value == [] && r.log == resolved.log + [ContentReadFailed(resolved.value.value)])
      && (resolved.value.Ok? && resolved.value.value in disk &&
          disk[resolved.value.value].Text? &&
          json.parseContent(disk[resolved.value.value].contents).None? ==>
            r.value == [] && r.log == resolved.log + [ContentParseFailed(resolved.value.value)])
    ensures forall d :: ContentFileHolds(json, disk, name, d) ==>
              LoadBlocks(json, disk, name).log == ContentPath(json, disk, name).log
  {
  }

  /** `load_homepage_blocks`: the homepage's stored blocks, or the seed content when that
      list is empty, so the result is never empty. */
  function LoadHomepageBlocks(json: Codec, disk: Disk): (r: Traced<seq<Blocks.BlockWithId>>)
    ensures r.value != []
    ensures LoadBlocks(json, disk, HomepageRoute).value == [] ==> r.value == Homepage.DefaultBlocks()
    ensures LoadBlocks(json, disk, HomepageRoute).value != [] ==>
              r.value == LoadBlocks(json, disk, HomepageRoute).value
    ensures r.log == LoadBlocks(json, disk, HomepageRoute).log
  {
    var loaded := LoadBlocks(json, disk, HomepageRoute);
    if loaded.value == [] then Traced(Homepage.DefaultBlocks(), loaded.log) else loaded
  }

  /** A route whose content file does not exist reads as empty, silently, and the homepage
      then shows the seed content. */
  lemma MissingContentFallsBack(json: Codec, disk: Disk, name: string, path: string)
    requires ContentPath(json, disk, name).value == Ok(path)
    requires path !in disk
    ensures LoadBlocks(json, disk, name) == Traced([], ContentPath(json, disk, name).log)
    ensures name == HomepageRoute ==> LoadHomepageBlocks(json, disk).value == Homepage.DefaultBlocks()
  {
  }

  // ---------------------------------------------------------------------------
  // Writing: the effect of each write operation on the disk
  // ---------------------------------------------------------------------------

  /** The effect of `fs::write(path, text)`: on success the file holds exactly `text`; on
      failure nothing is known about `path`, and every other file is untouched. */
  ghost predicate Written(before: Disk, after: Disk, path: string, text: string, r: Outcome<Error>) {
    || (r == Pass && after == before[path := Text(text)])
    || (r == Fail(IoError) && after - {path} == before - {path})
  }

  /** The effect of `save_blocks(name, blocks)`: a route that does not resolve, or a document
      that does not serialise, fails before anything is written; otherwise the resolved file
      is replaced by the serialisation of exactly `blocks`. */
  ghost predicate SavedBlocks(json: Codec, before: Disk, after: Disk, name: string,
                              blocks: seq<Blocks.BlockWithId>, r: Outcome<Error>)
  {
    match ContentPath(json, before, name).value
    case Err(e) => r == Fail(e) && after == before
    case Ok(path) =>
      match json.renderContent(Homepage.New(blocks))
      case None => r == Fail(SerializationError) && after == before
      case Some(text) => Written(before, after, path, text, r)
  }

  /** The effect of `save_routes(routes)`: only the route index file may change. */
  ghost predicate SavedRoutes(json: Codec, before: Disk, after: Disk, routes: seq<Route>,
                              r: Outcome<Error>)
  {
    match json.renderRoutes(routes)
    case None => r == Fail(SerializationError) && after == before
    case Some(text) => Written(before, after, RoutesPath, text, r)
  }

  /** The store: its JSON facility and the current state of the disk. */
  class Store {
    const json: Codec
    var disk: Disk

    constructor (json: Codec, disk: Disk)
      ensures this.json == json && this.disk == disk
    {
      this.json := json;
      this.disk := disk;
    }

    /** `fs::write`: whether the write completes is up to the environment. */
    method Write(path: string, text: string) returns (r: Outcome<Error>)
      modifies this
      ensures Written(old(disk), disk, path, text, r)
    {
      var completed: bool := *;
      if completed {
        disk := disk[path := Text(text)];
        r := Pass;
      } else {
        var residue: Option<FileEntry> := *;
        disk := match residue
          case None => disk - {path}
          case Some(entry) => disk[path := entry];
        r := Fail(IoError);
      }
    }

    /** `save_blocks`. */
    method SaveBlocks(name: string, blocks: seq<Blocks.BlockWithId>) returns (r: Outcome<Error>)
      modifies this
      ensures SavedBlocks(json, old(disk), disk, name, blocks, r)
    {
      var resolved := ContentPath(json, disk, name).value;
      if resolved.Err? {
        return Fail(resolved.error);
      }
      var rendered := json.renderContent(Homepage.New(blocks));
      if rendered.None? {
        return Fail(SerializationError);
      }
      r := Write(resolved.value, rendered.value);
    }

    /** `save_homepage_blocks`: `save_blocks` on the "homepage" route. */
    method SaveHomepageBlocks(blocks: seq<Blocks.BlockWithId>) returns (r: Outcome<Error>)
      modifies this
      ensures SavedBlocks(json, old(disk), disk, HomepageRoute, blocks, r)
    {
      r := SaveBlocks(HomepageRoute, blocks);
    }

    /** `save_routes`. */
    method SaveRoutes(routes: seq<Route>) returns (r: Outcome<Error>)
      modifies this
      ensures SavedRoutes(json, old(disk), disk, routes, r)
    {
      var rendered := json.renderRoutes(routes);
      if rendered.None? {
        return Fail(SerializationError);
      }
      r := Write(RoutesPath, rendered.value);
    }
  }

  // ---------------------------------------------------------------------------
  // What a reader sees after a write
  // ---------------------------------------------------------------------------

  /** Saving to a route that is not in the index fails with RouteNotFound and writes nothing. */
  lemma SaveToUnknownRouteWritesNothing(json: Codec, before: Disk, after: Disk, name: string,
                                        blocks: seq<Blocks.BlockWithId>, r: Outcome<Error>)
    requires SavedBlocks(json, before, after, name, blocks, r)
    requires forall i :: 0 <= i < |LoadRoutes(json, before).value| ==>
               LoadRoutes(json, before).value[i].name != name
    ensures r == Fail(RouteNotFound(name)) && after == before
  {
  }

  /** A save changes no file other than the one the route resolved to. */
  lemma SaveBlocksTouchesOnlyItsFile(json: Codec, before: Disk, after: Disk, name: string,
                                     blocks: seq<Blocks.BlockWithId>, r: Outcome<Error>)
    requires SavedBlocks(json, before, after, name, blocks, r)
    ensures ContentPath(json, before, name).value.Err? ==> after == before
    ensures forall path :: ContentPath(json, before, name).value == Ok(path) ==>
              after - {path} == before - {path}
  {
  }

  /** After a successful save, loading the route gives back exactly the saved blocks,
      provided the route's file is not the route index itself. */
  lemma SaveThenLoadBlocks(json: Codec, before: Disk, after: Disk, name: string,
                           blocks: seq<Blocks.BlockWithId>)
    requires RoundTrips(json)
    requires SavedBlocks(json, before, after, name, blocks, Pass)
    requires ContentPath(json, before, name).value != Ok(RoutesPath)
    ensures ContentPath(json, after, name) == ContentPath(json, before, name)
    ensures LoadBlocks(json, after, name).value == blocks
  {
  }

  /** Saving the empty list reads back as empty from `LoadBlocks`, but as the seed content
      from `LoadHomepageBlocks`: an emptied homepage cannot be told from a missing one. */
  lemma SavedEmptyHomepageReadsAsDefault(json: Codec, before: Disk, after: Disk)
    requires RoundTrips(json)
    requires SavedBlocks(json, before, after, HomepageRoute, [], Pass)
    requires ContentPath(json, before, HomepageRoute).value != Ok(RoutesPath)
    ensures LoadBlocks(json, after, HomepageRoute).value == []
    ensures LoadHomepageBlocks(json, after).value == Homepage.DefaultBlocks()
  {
  }

  /** After a successful `save_routes`, the index reads back as exactly the saved routes, and
      every route name resolves against them (nothing is cached). */
  lemma SaveThenLoadRoutes(json: Codec, before: Disk, after: Disk, routes: seq<Route>)
    requires RoundTrips(json)
    requires SavedRoutes(json, before, after, routes, Pass)
    ensures LoadRoutes(json, after).value == routes
    ensures forall name :: ContentPath(json, after, name).value == Resolve(routes, name)
  {
  }

  /** `save_routes` never touches a content file. */
  lemma SaveRoutesKeepsContent(json: Codec, before: Disk, after: Disk, routes: seq<Route>,
                               r: Outcome<Error>)
    requires SavedRoutes(json, before, after, routes, r)
    ensures after - {RoutesPath} == before - {RoutesPath}
  {
  }

  // ---------------------------------------------------------------------------
  // The unit tests of persistence.rs, stated over the codec assumption
  // ---------------------------------------------------------------------------

  /** The seed document survives a serialise/parse round trip with both blocks. */
  lemma DefaultBlocksRoundTrip(json: Codec)
    requires RoundTrips(json)
    requires json.renderContent(Homepage.New(Homepage.DefaultBlocks())).Some?
    ensures var text := json.renderContent(Homepage.New(Homepage.DefaultBlocks())).value;
      && json.parseContent(text).Some?
      && |json.parseContent(text).value.blocks| == 2
  {
  }

  /** A two-route index survives a serialise/parse round trip field for field. */
  lemma TwoRoutesRoundTrip(json: Codec)
    requires RoundTrips(json)
    requires json.renderRoutes([Route("/", "homepage", ["data/content/homepage.json"]),
                                Route("/foo", "foo", ["data/content/foo.json"])]).Some?
    ensures var text := json.renderRoutes([Route("/", "homepage", ["data/content/homepage.json"]),
                                           Route("/foo", "foo", ["data/content/foo.json"])]).value;
      && json.parseRoutes(text).Some?
      && var parsed := json.parseRoutes(text).value;
      && |parsed| == 2
      && parsed[0].path == "/" && parsed[0].name == "homepage"
      && parsed[0].blockIds == ["data/content/homepage.json"]
      && parsed[1].path == "/foo" && parsed[1].name == "foo"
      && parsed[1].blockIds == ["data/content/foo.json"]
  {
  }
}
