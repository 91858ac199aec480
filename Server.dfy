/**
 * The static file server that ships the built application: how a request
 * URL becomes a path under `dist`, the single-page fallback for paths
 * that contain no `.`, the content type looked up from the extension, and
 * the three outcomes over the set of files that exist.
 */
module Server {
  import opened Wrappers
  import opened Strings

  /** The directory the build is served from; it contains no `.`. */
  const Root := "dist"

  const IndexPath := "dist/index.html"

  const DefaultContentType := "application/octet-stream"

  const LoadError := "Error loading index.html"

  /** The extensions the server knows, with their content types. */
  const ContentTypes: map<string, string> := map[
    ".html" := "text/html",
    ".js" := "text/javascript",
    ".css" := "text/css",
    ".json" := "application/json",
    ".png" := "image/png",
    ".jpg" := "image/jpg",
    ".gif" := "image/gif",
    ".svg" := "image/svg+xml",
    ".ico" := "image/x-icon"
  ]

  /**
   * The path a URL is joined onto the root as: `/` names the index page,
   * anything else is appended below the root with one separator.
   */
  function ResolvePath(url: string): (p: string)
    ensures url == "/" ==> p == IndexPath
    ensures url != "/" ==> StartsWith(p, Root + "/") && EndsWith(p, url)
  {
    if url == "/" then IndexPath
    else if url != [] && url[0] == '/' then
      assert Root + url == Root + "/" + url[1..];
      Root + url
    else Root + "/" + url
  }

  /** The file the server tries first: the resolved path, or the index page when it has no `.`. */
  function ServedPath(url: string): (p: string)
    ensures '.' in p
  {
    var p := ResolvePath(url);
    assert IndexPath[10] == '.';
    if '.' !in p then IndexPath else p
  }

  lemma RootHasNoDot()
    ensures '.' !in Root + "/"
  {
  }

  /** The root URL and every URL without a `.` are served the index page; any other URL its own file. */
  lemma ServedPathCases(url: string)
    ensures url == "/" ==> ServedPath(url) == IndexPath
    ensures url != "/" && '.' !in url ==> ServedPath(url) == IndexPath
    ensures url != "/" && '.' in url ==> ServedPath(url) == ResolvePath(url)
  {
    var p := ResolvePath(url);
    if url != "/" {
      RootHasNoDot();
      assert p == p[..5] + p[5..];
      if '.' in url {
        var k :| 0 <= k < |url| && url[k] == '.';
        assert p[|p| - |url| + k] == '.';
      } else {
        forall k | 0 <= k < |p| ensures p[k] != '.' {
          if k >= |p| - |url| {
            assert p[k] == url[k - (|p| - |url|)];
          } else {
            assert k < 5;
            assert p[k] == (Root + "/")[k];
          }
        }
      }
    }
  }

  /** `String(path.split('.').pop())`: the text after the last `.`. */
  function ExtName(p: string): (e: string)
    ensures '.' !in e
    ensures '.' in p ==> EndsWith(p, "." + e)
  {
    var e := LastSegment(p, '.');
    if '.' in p then
      assert e != p;
      assert |e| < |p| by {
        assert p[|p| - |e|..] == e;
      }
      assert p[|p| - |e| - 1..] == "." + e;
      e
    else e
  }

  /** The type sent for a path: the mapped type of its extension, or the generic binary type. */
  function ContentType(p: string): (t: string)
    ensures "." + ExtName(p) !in ContentTypes ==> t == DefaultContentType
    ensures "." + ExtName(p) in ContentTypes ==> t == ContentTypes["." + ExtName(p)]
  {
    var key := "." + ExtName(p);
    if key in ContentTypes then ContentTypes[key] else DefaultContentType
  }

  /** Only the text after the last `.` decides the type, whatever comes before it. */
  lemma ContentTypeOfExtension(stem: string, ext: string)
    requires '.' !in ext
    ensures ContentType(stem + "." + ext) == if "." + ext in ContentTypes then ContentTypes["." + ext] else DefaultContentType
  {
    var p := stem + ['.'] + ext;
    assert stem + "." + ext == p;
    assert p[|stem|] == '.';
    LastSegmentAfter(stem, '.', ext);
  }

  /** `.xyz` is not one of the map's keys. */
  lemma XyzUnknown()
    ensures ".xyz" !in ContentTypes
  {
    assert ".xyz"[1] == 'x';
    assert ".html"[1] == 'h' && ".js"[1] == 'j' && ".css"[1] == 'c' && ".json"[1] == 'j' && ".png"[1] == 'p';
    assert ".jpg"[1] == 'j' && ".gif"[1] == 'g' && ".svg"[1] == 's' && ".ico"[1] == 'i';
  }

  /** The `.jpg` type is `image/jpg`, whatever the path before it. */
  lemma JpgContentType(stem: string)
    ensures ContentType(stem + ".jpg") == "image/jpg"
  {
    assert stem + ".jpg" == stem + "." + "jpg";
    assert "." + "jpg" == ".jpg" && ".jpg" in ContentTypes;
    ContentTypeOfExtension(stem, "jpg");
  }

  /** The index page is sent as HTML. */
  lemma IndexIsHtml()
    ensures ContentType(IndexPath) == "text/html"
  {
    var stem := "dist/index";
    assert IndexPath == stem + "." + "html";
    assert "." + "html" == ".html" && ".html" in ContentTypes;
    ContentTypeOfExtension(stem, "html");
  }

  /** An extension the map does not know gets the generic binary type, whatever the path before it. */
  lemma UnknownContentType(stem: string, ext: string)
    requires '.' !in ext && "." + ext !in ContentTypes
    ensures ContentType(stem + "." + ext) == DefaultContentType
  {
    ContentTypeOfExtension(stem, ext);
  }

  /** For instance `.xyz`. */
  lemma XyzContentType(stem: string)
    ensures ContentType(stem + ".xyz") == DefaultContentType
  {
    XyzUnknown();
    assert stem + ".xyz" == stem + "." + "xyz";
    assert "." + "xyz" == ".xyz";
    UnknownContentType(stem, "xyz");
  }

  datatype Body = FileBody(path: string) | Text(text: string)

  /**
   * What the client receives. The fallback page is piped without a status
   * line of its own, so it goes out as an implicit 200 with no content type.
   */
  datatype Response = Response(status: nat, contentType: Option<string>, body: Body)

  /**
   * What the handler answers over the set of paths that can be opened:
   * the file itself with its type when it exists, otherwise the index
   * page, otherwise a 500 with a fixed message.
   */
  function Outcome(url: string, files: set<string>): Response {
    var p := ServedPath(url);
    if p in files then Response(200, Some(ContentType(p)), FileBody(p))
    else if IndexPath in files then Response(200, None, FileBody(IndexPath))
    else Response(500, None, Text(LoadError))
  }

  /**
   * Every request is answered 200 or 500; 500 exactly when neither the
   * file nor the index page exists; a content type is sent exactly when the
   * requested file itself is served.
   */
  lemma OutcomeStatus(url: string, files: set<string>)
    ensures Outcome(url, files).status in {200, 500}
    ensures Outcome(url, files).status == 500 <==> ServedPath(url) !in files && IndexPath !in files
    ensures Outcome(url, files).contentType.Some? <==> ServedPath(url) in files
    ensures ServedPath(url) in files ==>
      Outcome(url, files) == Response(200, Some(ContentType(ServedPath(url))), FileBody(ServedPath(url)))
    ensures ServedPath(url) !in files && IndexPath in files ==> Outcome(url, files) == Response(200, None, FileBody(IndexPath))
    ensures ServedPath(url) !in files && IndexPath !in files ==> Outcome(url, files) == Response(500, None, Text(LoadError))
    ensures Outcome(url, files).body.Text? ==> Outcome(url, files).body.text == LoadError
    ensures Outcome(url, files).body.FileBody? ==> Outcome(url, files).body.path in files
  {
  }

  /**
   * The handler as written: the path is resolved, reassigned to the index
   * page when it has no `.`, and then opened, falling back to the index.
   */
  method HandleRequest(url: string, files: set<string>) returns (r: Response)
    ensures r == Outcome(url, files)
  {
    var filePath := ResolvePath(url);
    if '.' !in filePath {
      filePath := IndexPath;
    }
    var contentType := ContentType(filePath);
    if filePath in files {
      r := Response(200, Some(contentType), FileBody(filePath));
    } else if IndexPath in files {
      r := Response(200, None, FileBody(IndexPath));
    } else {
      r := Response(500, None, Text(LoadError));
    }
  }

  /** The root URL is the index page, sent as HTML. */
  lemma RootRequest(files: set<string>)
    requires IndexPath in files
    ensures Outcome("/", files) == Response(200, Some("text/html"), FileBody(IndexPath))
  {
    ServedPathCases("/");
    IndexIsHtml();
  }

  /** A request for a missing asset (a URL with a `.` whose file does not exist) is answered with the index page. */
  lemma MissingAssetFallsBack(url: string, files: set<string>)
    requires url != "/" && '.' in url
    requires IndexPath in files && ResolvePath(url) !in files
    ensures Outcome(url, files) == Response(200, None, FileBody(IndexPath))
  {
    ServedPathCases(url);
  }
}
