/** The `ContentDm` client: a mutable, possibly absent server descriptor,
    the two URL builders that read it, the request algorithm shared by the
    four RPC wrappers, and the download pipeline. The HTTP transport, the
    file system and `JSON.parse` are outside: their answers come in as the
    event sequences of the Outcomes module, the existence check as a flag,
    and the parser as a function parameter. */
module Client {
  import opened Wrappers
  import opened Strings
  import opened Protocol
  import opened Outcomes

  class ContentDm {
    /** `server: CdmServer | null`; callers may replace it at any time. */
    var server: Option<CdmServer>

    constructor (server: Option<CdmServer>)
      ensures this.server == server
    {
      this.server := server;
    }

    /** `_endpoint()`: empty exactly when no server is set. */
    function Endpoint(): (r: string)
      reads this
      ensures r == "" <==> server.None?
    {
      match server
      case None => ""
      case Some(s) => Origin(s) + EndpointPath
    }

    /** `_fileUrl(alias, pointer)`: empty exactly when no server is set. */
    function FileUrl(alias: string, pointer: string): (r: string)
      reads this
      ensures r == "" <==> server.None?
    {
      match server
      case None => ""
      case Some(s) => Origin(s) + FilePath + alias + PointerKey + pointer
    }

    /** `_request(fnc, params)`: the URL it GETs and the outcome of its promise
        when the response delivers `events` and `parse` stands for
        `JSON.parse`. */
    method Request<J>(fnc: string, params: Option<seq<string>>, events: seq<ResponseEvent>, parse: string -> Option<J>)
      returns (url: string, outcome: Outcome<J>)
      ensures url == Endpoint() + Query(fnc, params)
      ensures outcome == RequestRun(parse, RequestStart(Endpoint(), Endpoint() + Query(fnc, params)), events).outcome
    {
      outcome := Pending;
      if Endpoint() == "" {
        outcome := Settle(outcome, Rejected(NotConfigured));
      }
      url := Endpoint() + Query(fnc, params);
      if !GetAccepts(url) {
        // `get` throws on the bare query string of an unconfigured client
        // and on the `https:` URL of a TLS server: the promise constructor
        // rejects, unless already rejected, and no response callback exists.
        outcome := Settle(outcome, Rejected(GetError(url)));
        StalledRequestStays(parse, RequestStart(Endpoint(), url), events);
        return;
      }
      var rawData := "";
      ghost var start: RequestState<J> := RequestStart(Endpoint(), url);
      var i := 0;
      while i < |events|
        invariant 0 <= i <= |events|
        invariant RequestState(outcome, rawData, true) == RequestRun(parse, start, events[..i])
      {
        ghost var before := RequestState(outcome, rawData, true);
        match events[i] {
          case Status(code) =>
            if code != 200 {
              outcome := Settle(outcome, Rejected(RequestFailed(code)));
            }
            rawData := "";
          case Data(chunk) =>
            rawData := rawData + chunk;
          case End =>
            match parse(rawData) {
              case Some(data) => outcome := Settle(outcome, Resolved(data));
              case None => outcome := Settle(outcome, Rejected(MalformedResponse));
            }
        }
        assert RequestState(outcome, rawData, true) == RequestStep(parse, before, events[i]);
        assert events[..i + 1][..i] == events[..i];
        i := i + 1;
      }
      assert events[..|events|] == events;
    }

    /** `collections(published)`: `dmGetCollectionList` with the one
        parameter `String(published)`. */
    method Collections<J>(published: Option<CdmType>, events: seq<ResponseEvent>, parse: string -> Option<J>)
      returns (url: string, outcome: Outcome<J>)
      ensures url == Endpoint() + Query("dmGetCollectionList", Some([PublishedParam(published)]))
      ensures outcome == RequestRun(parse, RequestStart(Endpoint(), url), events).outcome
    {
      url, outcome := Request("dmGetCollectionList", Some([PublishedParam(published)]), events, parse);
    }

    /** `collectionFieldInfo(alias)`. */
    method CollectionFieldInfo<J>(alias: string, events: seq<ResponseEvent>, parse: string -> Option<J>)
      returns (url: string, outcome: Outcome<J>)
      ensures url == Endpoint() + Query("dmGetCollectionFieldInfo", Some([NormalizeAlias(alias)]))
      ensures outcome == RequestRun(parse, RequestStart(Endpoint(), url), events).outcome
    {
      var normalized := NormalizeAlias(alias);
      url, outcome := Request("dmGetCollectionFieldInfo", Some([normalized]), events, parse);
    }

    /** `compoundObject(alias, pointer)`. */
    method CompoundObject<J>(alias: string, pointer: string, events: seq<ResponseEvent>, parse: string -> Option<J>)
      returns (url: string, outcome: Outcome<J>)
      ensures url == Endpoint() + Query("dmGetCompoundObjectInfo", Some([NormalizeAlias(alias), pointer]))
      ensures outcome == RequestRun(parse, RequestStart(Endpoint(), url), events).outcome
    {
      var normalized := NormalizeAlias(alias);
      url, outcome := Request("dmGetCompoundObjectInfo", Some([normalized, pointer]), events, parse);
    }

    /** `item(alias, pointer)`. */
    method Item<J>(alias: string, pointer: string, events: seq<ResponseEvent>, parse: string -> Option<J>)
      returns (url: string, outcome: Outcome<J>)
      ensures url == Endpoint() + Query("dmGetItemInfo", Some([NormalizeAlias(alias), pointer]))
      ensures outcome == RequestRun(parse, RequestStart(Endpoint(), url), events).outcome
    {
      var normalized := NormalizeAlias(alias);
      url, outcome := Request("dmGetItemInfo", Some([normalized, pointer]), events, parse);
    }

    /** `download(file, location)`: the effects it asks for and the outcome of
        its promise, given whether the destination exists and what the file
        system reports. */
    method Download(file: AssetRef, location: string, destExists: bool, events: seq<DownloadEvent>)
      returns (actions: seq<FsAction>, outcome: Outcome<()>)
      ensures DownloadState(outcome, actions, GetAccepts(FileUrl(file.alias, file.pointer)))
           == DownloadRun(Destination(location, file.filename), PartPath(Destination(location, file.filename)),
                          DownloadStart(FileUrl(file.alias, file.pointer), Destination(location, file.filename),
                                        PartPath(Destination(location, file.filename)), destExists),
                          events)
    {
      var url := FileUrl(file.alias, file.pointer);
      var destination := Destination(location, file.filename);
      var part := PartPath(destination);
      outcome := Pending;
      if destExists {
        outcome := Settle(outcome, Resolved(()));
      }
      actions := [OpenWrite(part)];
      if !GetAccepts(url) {
        // `get` throws on the empty URL of an unconfigured client and on the
        // `https:` URL of a TLS server: the promise constructor rejects, and
        // neither `finish` nor `rename` is ever listened for.
        outcome := Settle(outcome, Rejected(GetError(url)));
        StalledDownloadStays(destination, part, DownloadStart(url, destination, part, destExists), events);
        return;
      }
      actions := actions + [Get(url)];
      var i := 0;
      while i < |events|
        invariant 0 <= i <= |events|
        invariant DownloadState(outcome, actions, true)
               == DownloadRun(destination, part, DownloadStart(url, destination, part, destExists), events[..i])
      {
        match events[i] {
          case Finish =>
            actions := actions + [Close(part), Rename(part, destination)];
          case Renamed(err) =>
            if err.Some? {
              outcome := Settle(outcome, Rejected(RenameFailed(err.value)));
            }
            outcome := Settle(outcome, Resolved(()));
        }
        assert events[..i + 1][..i] == events[..i];
        i := i + 1;
      }
      assert events[..|events|] == events;
    }
  }

  /** A configured endpoint reads back as the server it was built from. */
  lemma EndpointRoundTrip(c: ContentDm)
    requires c.server.Some? && ':' !in c.server.value.hostname
    ensures ParseEndpoint(c.Endpoint()) == c.server
  {
    EndpointParses(c.server.value);
  }

  /** A configured file URL reads back as the server, the alias and the
      pointer it was built from, when the alias holds no `&`. */
  lemma FileUrlRoundTrip(c: ContentDm, alias: string, pointer: string)
    requires c.server.Some? && ':' !in c.server.value.hostname && '&' !in alias
    ensures ParseFileUrl(c.FileUrl(alias, pointer)) == Some((c.server.value, alias, pointer))
  {
    FileUrlParses(c.server.value, alias, pointer);
  }

  /** `get` takes every URL of a configured plain server. */
  lemma PlainServerAccepted(c: ContentDm, fnc: string, params: Option<seq<string>>, alias: string, pointer: string)
    requires c.server.Some? && !c.server.value.ssl
    ensures GetAccepts(c.Endpoint() + Query(fnc, params))
    ensures GetAccepts(c.FileUrl(alias, pointer))
  {
    var s := c.server.value;
    var q := EndpointPath + Query(fnc, params);
    assert c.Endpoint() + Query(fnc, params) == Origin(s) + q;
    OriginHead(s, q);
    GetAcceptance(s.hostname + ":" + NatToString(s.port) + q);
    var f := FilePath + alias + PointerKey + pointer;
    assert c.FileUrl(alias, pointer) == Origin(s) + f;
    OriginHead(s, f);
    GetAcceptance(s.hostname + ":" + NatToString(s.port) + f);
  }

  /** An unconfigured client's RPC is rejected with NotConfigured and never
      reads a response: `get` refuses the bare query string. */
  lemma UnconfiguredRequestRejects<J>(c: ContentDm, fnc: string, params: Option<seq<string>>,
                                      parse: string -> Option<J>, events: seq<ResponseEvent>)
    requires c.server.None?
    ensures RequestRun(parse, RequestStart(c.Endpoint(), c.Endpoint() + Query(fnc, params)), events)
         == RequestState(Rejected(NotConfigured), "", false)
  {
    var tail := fnc + "/" + (if params.Some? then Join(params.value, "/") else "") + "/json";
    assert c.Endpoint() + Query(fnc, params) == "q=" + tail;
    GetAcceptance(tail);
    UnconfiguredRejects(parse, c.Endpoint() + Query(fnc, params), events);
  }

  /** Every RPC to a TLS server is rejected at once with the protocol error
      `get` throws, and no response is read. */
  lemma TlsRequestRejects<J>(c: ContentDm, fnc: string, params: Option<seq<string>>,
                             parse: string -> Option<J>, events: seq<ResponseEvent>)
    requires c.server.Some? && c.server.value.ssl
    ensures RequestRun(parse, RequestStart(c.Endpoint(), c.Endpoint() + Query(fnc, params)), events)
         == RequestState(Rejected(InvalidProtocol), "", false)
  {
    var s := c.server.value;
    var q := EndpointPath + Query(fnc, params);
    assert c.Endpoint() + Query(fnc, params) == Origin(s) + q;
    OriginHead(s, q);
    GetAcceptance(s.hostname + ":" + NatToString(s.port) + q);
    RefusedRequestRejects(parse, c.Endpoint(), c.Endpoint() + Query(fnc, params), events);
  }

  /** A client with no server never fetches anything when asked to
      download: it opens the partial file, and its promise is rejected
      unless the destination already existed. */
  lemma DownloadWithoutServer(c: ContentDm, file: AssetRef, location: string, destExists: bool, events: seq<DownloadEvent>)
    requires c.server.None?
    ensures DownloadRun(Destination(location, file.filename), PartPath(Destination(location, file.filename)),
                        DownloadStart(c.FileUrl(file.alias, file.pointer), Destination(location, file.filename),
                                      PartPath(Destination(location, file.filename)), destExists),
                        events)
         == DownloadState(if destExists then Resolved(()) else Rejected(InvalidUrl),
                          [OpenWrite(PartPath(Destination(location, file.filename)))], false)
  {
    GetAcceptance("");
    RefusedDownloadRejects(c.FileUrl(file.alias, file.pointer), Destination(location, file.filename),
                           PartPath(Destination(location, file.filename)), destExists, events);
  }

  /** A download from a TLS server fetches nothing: it opens the partial
      file, and its promise is rejected with the protocol error unless the
      destination already existed. */
  lemma TlsDownloadRejects(c: ContentDm, file: AssetRef, location: string, destExists: bool, events: seq<DownloadEvent>)
    requires c.server.Some? && c.server.value.ssl
    ensures DownloadRun(Destination(location, file.filename), PartPath(Destination(location, file.filename)),
                        DownloadStart(c.FileUrl(file.alias, file.pointer), Destination(location, file.filename),
                                      PartPath(Destination(location, file.filename)), destExists),
                        events)
         == DownloadState(if destExists then Resolved(()) else Rejected(InvalidProtocol),
                          [OpenWrite(PartPath(Destination(location, file.filename)))], false)
  {
    var s := c.server.value;
    var f := FilePath + file.alias + PointerKey + file.pointer;
    assert c.FileUrl(file.alias, file.pointer) == Origin(s) + f;
    OriginHead(s, f);
    GetAcceptance(s.hostname + ":" + NatToString(s.port) + f);
    RefusedDownloadRejects(c.FileUrl(file.alias, file.pointer), Destination(location, file.filename),
                           PartPath(Destination(location, file.filename)), destExists, events);
  }

  // ---------------------------------------------------------------------
  // Worked examples. The verifier compares string literals character by
  // character, and its cost grows quickly with their length. So each long
  // URL is assembled from short pieces: every `…Literal…` lemma below
  // states a single join of two literals, and the example lemmas chain
  // those joins.

  /** The server descriptor of the worked examples. */
  function ExampleServer(): CdmServer {
    CdmServer("cdm.example.org", 81, false)
  }

  lemma ExampleOrigin()
    ensures Origin(ExampleServer()) == "http://cdm.example.org:81"
  {
    assert NatToString(8) == "8";
    assert Digit(1) == '1';
    assert NatToString(81) == NatToString(8) + [Digit(1)];
    assert NatToString(81) == "81";
    assert Origin(ExampleServer()) == "http" + "" + "://" + "cdm.example.org" + ":" + "81";
  }

  lemma ExampleEndpoint(c: ContentDm)
    requires c.server == Some(ExampleServer())
    ensures c.Endpoint() == "http://cdm.example.org:81/dmwebservices/index.php?"
  {
    ExampleOrigin();
    ExampleEndpointLiteral();
  }

  lemma ExampleEndpointLiteral()
    ensures "http://cdm.example.org:81" + EndpointPath == "http://cdm.example.org:81/dmwebservices/index.php?"
  {
  }

  lemma ExampleCollectionsQuery()
    ensures Query("dmGetCollectionList", Some([PublishedParam(Some(Published))])) == "q=dmGetCollectionList/0/json"
  {
    assert PublishedParam(Some(Published)) == "0";
    assert Join(["0"], "/") == "0";
    // literal concatenations, two at a time
    assert "q=" + "dmGetCollectionList" == "q=dmGetCollectionList";
    assert "q=dmGetCollectionList" + "/" == "q=dmGetCollectionList/";
    assert "q=dmGetCollectionList/" + "0" == "q=dmGetCollectionList/0";
    assert "q=dmGetCollectionList/0" + "/json" == "q=dmGetCollectionList/0/json";
  }

  /** `collections(Published)` against `cdm.example.org:81` without TLS. */
  lemma ExampleCollectionsUrl(c: ContentDm)
    requires c.server == Some(ExampleServer())
    ensures c.Endpoint() + Query("dmGetCollectionList", Some([PublishedParam(Some(Published))]))
         == "http://cdm.example.org:81/dmwebservices/index.php?q=dmGetCollectionList/0/json"
  {
    ExampleEndpoint(c);
    ExampleCollectionsQuery();
    ExampleCollectionsLiteral();
  }

  lemma ExampleCollectionsLiteral()
    ensures "http://cdm.example.org:81/dmwebservices/index.php?" + "q=dmGetCollectionList/0/json"
         == "http://cdm.example.org:81/dmwebservices/index.php?q=dmGetCollectionList/0/json"
  {
  }

  /** `_fileUrl("demo", "12")` against the same server. */
  lemma ExampleFileUrl(c: ContentDm)
    requires c.server == Some(ExampleServer())
    ensures c.FileUrl("demo", "12") == "http://cdm.example.org:81/cgi-bin/showfile.exe?CISOROOT=demo&CISOPTR=12"
  {
    ExampleOrigin();
    FileUrlLiteralHead();
    FileUrlLiteralAlias();
    FileUrlLiteralKey();
    FileUrlLiteralPointer();
  }

  lemma FileUrlLiteralHead()
    ensures "http://cdm.example.org:81" + FilePath == "http://cdm.example.org:81/cgi-bin/showfile.exe?CISOROOT="
  {
    FileUrlLiteralCgi();
    FileUrlLiteralScript();
  }

  lemma FileUrlLiteralCgi()
    ensures "http://cdm.example.org:81" + "/cgi-bin/" == "http://cdm.example.org:81/cgi-bin/"
  {
  }

  lemma FileUrlLiteralScript()
    ensures "http://cdm.example.org:81/cgi-bin/" + "showfile.exe?CISOROOT="
         == "http://cdm.example.org:81/cgi-bin/showfile.exe?CISOROOT="
  {
  }

  lemma FileUrlLiteralAlias()
    ensures "http://cdm.example.org:81/cgi-bin/showfile.exe?CISOROOT=" + "demo"
         == "http://cdm.example.org:81/cgi-bin/showfile.exe?CISOROOT=demo"
  {
  }

  lemma FileUrlLiteralKey()
    ensures "http://cdm.example.org:81/cgi-bin/showfile.exe?CISOROOT=demo" + PointerKey
         == "http://cdm.example.org:81/cgi-bin/showfile.exe?CISOROOT=demo&CISOPTR="
  {
  }

  lemma FileUrlLiteralPointer()
    ensures "http://cdm.example.org:81/cgi-bin/showfile.exe?CISOROOT=demo&CISOPTR=" + "12"
         == "http://cdm.example.org:81/cgi-bin/showfile.exe?CISOROOT=demo&CISOPTR=12"
  {
  }

  /** An alias and the same alias behind a `/` produce the same request
      exactly when the alias holds no `/` of its own. */
  lemma LeadingSlashSameRequest(c: ContentDm, alias: string, pointer: string)
    ensures c.Endpoint() + Query("dmGetItemInfo", Some([NormalizeAlias("/" + alias), pointer]))
         == c.Endpoint() + Query("dmGetItemInfo", Some([NormalizeAlias(alias), pointer]))
        <==> '/' !in alias
  {
    LeadingSlashIgnored(alias);
    var pre := c.Endpoint() + "q=dmGetItemInfo/";
    var post := "/" + pointer + "/json";
    ItemUrlFrame(c.Endpoint(), NormalizeAlias("/" + alias), pointer);
    ItemUrlFrame(c.Endpoint(), NormalizeAlias(alias), pointer);
    CancelFrame(pre, NormalizeAlias("/" + alias), NormalizeAlias(alias), post);
  }

  lemma ItemUrlFrame(endpoint: string, alias: string, pointer: string)
    ensures endpoint + Query("dmGetItemInfo", Some([alias, pointer]))
         == (endpoint + "q=dmGetItemInfo/") + alias + ("/" + pointer + "/json")
  {
    assert Join([alias, pointer], "/") == alias + "/" + pointer by {
      assert [alias, pointer][1..] == [pointer];
    }
  }
}
