/** The wire formats of the CONTENTdm client: the server descriptor and the
    scheme/host/port origin built from it, the RPC query string, the
    normalisation of collection aliases, the `String(published)` parameter
    and the download paths. The origin, the file URL and the query each have
    an idealised reader beside them: a split of the raw string at its
    delimiters, with no percent- or `+`-decoding and no special meaning for
    `&` or `#`. A lemma proves that the reader recovers what was written.
    The alias, the `String(published)` parameter and the paths carry their
    properties directly. */
module Protocol {
  import opened Wrappers
  import opened Strings

  /** `CdmServer`: the port, a JavaScript number, is modelled as a `nat`. */
  datatype CdmServer = CdmServer(hostname: string, port: nat, ssl: bool)

  /** `CdmType`: `Published = 0`, `Unpublished = 1`. */
  datatype CdmType = Published | Unpublished

  /** The `file` argument of `download`: only these three properties are read. */
  datatype AssetRef = AssetRef(alias: string, pointer: string, filename: string)

  /** A decoded RPC call: the function name and its positional parameters. */
  datatype Rpc = Rpc(fnc: string, params: seq<string>)

  const EndpointPath := "/dmwebservices/index.php?"
  const FilePath := "/cgi-bin/showfile.exe?CISOROOT="
  const PointerKey := "&CISOPTR="

  /** `'http' + (ssl ? 's' : '') + '://'`, which spells `https://` for a TLS
      server and `http://` otherwise. */
  function Scheme(ssl: bool): string {
    if ssl then "https://" else "http://"
  }

  /** `scheme + hostname + ':' + port`, the common head of the RPC endpoint
      and the file URL. */
  function Origin(s: CdmServer): string {
    Scheme(s.ssl) + s.hostname + ":" + NatToString(s.port)
  }

  /** Every URL built on an origin starts with the scheme. */
  lemma OriginHead(s: CdmServer, tail: string)
    ensures Origin(s) + tail == Scheme(s.ssl) + (s.hostname + ":" + NatToString(s.port) + tail)
  {
  }

  // ---------------------------------------------------------------------
  // Reading an origin back

  /** Host and port after the scheme: the host ends at the first `:`, the
      port is the run of digits up to the first `/`; the rest is the path. */
  function SplitAuthority(ssl: bool, rest: string): Option<(CdmServer, string)> {
    var i := IndexOf(rest, ':');
    if i < 0 then None
    else
      var after := rest[i + 1..];
      var j := IndexOf(after, '/');
      var digits := if j < 0 then after else after[..j];
      var path := if j < 0 then "" else after[j..];
      if digits == [] || !IsDigits(digits) then None
      else Some((CdmServer(rest[..i], ParseNat(digits), ssl), path))
  }

  /** The server descriptor and the path of an `http://` or `https://` URL. */
  function ParseOrigin(u: string): Option<(CdmServer, string)> {
    var ssl := |u| >= 8 && u[..8] == "https://";
    if !ssl && !(|u| >= 7 && u[..7] == "http://") then None
    else SplitAuthority(ssl, u[|Scheme(ssl)|..])
  }

  /** A host free of `:`, then `:`, some digits and a path that begins
      with `/`, splits back into its three parts. */
  lemma AuthorityRoundTrip(ssl: bool, host: string, digits: string, path: string)
    requires ':' !in host && |digits| > 0 && IsDigits(digits)
    requires |path| > 0 && path[0] == '/'
    ensures SplitAuthority(ssl, host + ":" + digits + path)
         == Some((CdmServer(host, ParseNat(digits), ssl), path))
  {
    var rest := host + ":" + digits + path;
    assert rest == host + [':'] + (digits + path);
    CutAt(host, digits + path, ':');
    var after := rest[|host| + 1..];
    assert after == digits + path;
    PortSplit(digits, path);
    assert after[..|digits|] == digits && after[|digits|..] == path;
  }

  /** A run of digits followed by a path that begins with `/` splits at
      that `/`. */
  lemma PortSplit(digits: string, path: string)
    requires IsDigits(digits)
    requires |path| > 0 && path[0] == '/'
    ensures IndexOf(digits + path, '/') == |digits|
    ensures (digits + path)[..|digits|] == digits && (digits + path)[|digits|..] == path
  {
    assert '/' !in digits by {
      forall k | 0 <= k < |digits| ensures digits[k] != '/' { assert IsDigit(digits[k]); }
    }
    CutAt(digits, path[1..], '/');
    assert digits + path == digits + ['/'] + path[1..];
  }

  /** The origin followed by any path that begins with `/` reads back as the
      same descriptor and the same path, provided the host name holds no `:`. */
  lemma OriginRoundTrip(s: CdmServer, path: string)
    requires ':' !in s.hostname
    requires |path| > 0 && path[0] == '/'
    ensures ParseOrigin(Origin(s) + path) == Some((s, path))
  {
    var rest := s.hostname + ":" + NatToString(s.port) + path;
    assert Origin(s) + path == Scheme(s.ssl) + rest;
    SchemeStrip(s.ssl, rest);
    AuthorityRoundTrip(s.ssl, s.hostname, NatToString(s.port), path);
    ParseNatToString(s.port);
  }

  /** ParseOrigin recognises the scheme Origin writes and reads on after it. */
  lemma SchemeStrip(ssl: bool, rest: string)
    ensures ParseOrigin(Scheme(ssl) + rest) == SplitAuthority(ssl, rest)
  {
    var u := Scheme(ssl) + rest;
    if ssl {
      assert u[..8] == "https://" && u[8..] == rest;
    } else {
      assert u[..7] == "http://" && u[7..] == rest;
      assert u[4] == ':';
    }
  }

  /** The descriptor an RPC endpoint was built from. */
  function ParseEndpoint(u: string): Option<CdmServer> {
    match ParseOrigin(u)
    case Some((s, path)) => if path == EndpointPath then Some(s) else None
    case None => None
  }

  /** The alias and pointer of a file path: the alias ends at the first `&`. */
  function ParseFilePath(path: string): Option<(string, string)> {
    if |path| < |FilePath| || path[..|FilePath|] != FilePath then None
    else
      var q := path[|FilePath|..];
      var k := IndexOf(q, '&');
      if k < 0 || |q| - k < |PointerKey| || q[k..k + |PointerKey|] != PointerKey then None
      else Some((q[..k], q[k + |PointerKey|..]))
  }

  /** The descriptor, alias and pointer a file URL was built from. */
  function ParseFileUrl(u: string): Option<(CdmServer, string, string)> {
    match ParseOrigin(u)
    case None => None
    case Some((s, path)) =>
      match ParseFilePath(path)
      case None => None
      case Some((alias, pointer)) => Some((s, alias, pointer))
  }

  /** The RPC endpoint reads back as the descriptor it was built from. */
  lemma EndpointParses(s: CdmServer)
    requires ':' !in s.hostname
    ensures ParseEndpoint(Origin(s) + EndpointPath) == Some(s)
  {
    OriginRoundTrip(s, EndpointPath);
  }

  /** A file URL reads back as its descriptor, alias and pointer, provided the
      alias holds no `&` (neither part is URL-encoded). */
  lemma FileUrlParses(s: CdmServer, alias: string, pointer: string)
    requires ':' !in s.hostname && '&' !in alias
    ensures ParseFileUrl(Origin(s) + FilePath + alias + PointerKey + pointer)
         == Some((s, alias, pointer))
  {
    var path := FilePath + alias + PointerKey + pointer;
    assert Origin(s) + FilePath + alias + PointerKey + pointer == Origin(s) + path;
    OriginRoundTrip(s, path);
    FilePathParses(alias, pointer);
  }

  lemma FilePathParses(alias: string, pointer: string)
    requires '&' !in alias
    ensures ParseFilePath(FilePath + alias + PointerKey + pointer) == Some((alias, pointer))
  {
    var path := FilePath + alias + PointerKey + pointer;
    var q := alias + PointerKey + pointer;
    assert path[..|FilePath|] == FilePath && path[|FilePath|..] == q by {
      assert path == FilePath + q;
    }
    assert IndexOf(q, '&') == |alias| by {
      assert q == alias + ['&'] + ("CISOPTR=" + pointer);
      CutAt(alias, "CISOPTR=" + pointer, '&');
    }
    assert q[|alias|..|alias| + |PointerKey|] == PointerKey && q[..|alias|] == alias
        && q[|alias| + |PointerKey|..] == pointer by {
      assert q == alias + PointerKey + pointer;
    }
  }

  // ---------------------------------------------------------------------
  // The RPC query string

  /** `'q=' + fnc + '/' + (params ? params.join('/') : '') + '/json'`. */
  function Query(fnc: string, params: Option<seq<string>>): string {
    var strParams := match params case Some(ps) => Join(ps, "/") case None => "";
    "q=" + fnc + "/" + strParams + "/json"
  }

  /** A positional reading of the raw query string: strip `q=` and `/json`,
      split the rest on `/`; the first piece names the function. No URL
      decoding is done, and `&` and `#` are ordinary characters here. */
  function ParseQuery(q: string): Option<Rpc> {
    if |q| < 7 || q[..2] != "q=" || q[|q| - 5..] != "/json" then None
    else
      var parts := Split(q[2..|q| - 5], '/');
      Some(Rpc(parts[0], parts[1..]))
  }

  /** Absent parameters, an empty list and a single empty parameter all give
      the same `//json` tail. */
  lemma AbsentParamsQuery(fnc: string)
    ensures Query(fnc, None) == Query(fnc, Some([])) == Query(fnc, Some([""]))
    ensures Query(fnc, None) == "q=" + fnc + "//json"
  {
  }

  /** The positional reading recovers the function name and every
      parameter, in order, exactly when none of them holds a `/`. */
  lemma QueryRoundTrip(fnc: string, params: seq<string>)
    requires |params| > 0
    ensures ParseQuery(Query(fnc, Some(params))) == Some(Rpc(fnc, params))
        <==> '/' !in fnc && forall k :: 0 <= k < |params| ==> '/' !in params[k]
  {
    var mid := fnc + "/" + Join(params, "/");
    var q := Query(fnc, Some(params));
    assert q == "q=" + mid + "/json";
    assert q[..2] == "q=";
    assert q[|q| - 5..] == "/json";
    assert q[2..|q| - 5] == mid;
    var parts := Split(mid, '/');
    if '/' !in fnc && forall k :: 0 <= k < |params| ==> '/' !in params[k] {
      SplitAfter(fnc, Join(params, "/"), '/');
      SplitJoin(params, '/');
      assert parts == [fnc] + params;
    }
    if ParseQuery(q) == Some(Rpc(fnc, params)) {
      assert parts == [fnc] + params;
      assert forall k :: 0 <= k < |params| ==> params[k] == parts[k + 1];
    }
  }

  // ---------------------------------------------------------------------
  // The parameters the public wrappers pass

  /** `String(published)` for `published?: CdmType`. */
  function PublishedParam(published: Option<CdmType>): string {
    match published
    case Some(Published) => "0"
    case Some(Unpublished) => "1"
    case None => "undefined"
  }

  /** `collections` makes a one-parameter call that the positional reading
      gives back unchanged. */
  lemma CollectionsQuery(published: Option<CdmType>)
    ensures ParseQuery(Query("dmGetCollectionList", Some([PublishedParam(published)])))
         == Some(Rpc("dmGetCollectionList", [PublishedParam(published)]))
  {
    var p := PublishedParam(published);
    assert '/' !in p by {
      match published
      case Some(Published) =>
      case Some(Unpublished) =>
      case None => assert p == "undefined";
    }
    QueryRoundTrip("dmGetCollectionList", [p]);
  }

  /** The three choices give three different parameters. */
  lemma PublishedParamInjective(published: Option<CdmType>, other: Option<CdmType>)
    ensures PublishedParam(published) == PublishedParam(other) <==> published == other
  {
    var p := PublishedParam(published);
    if p == PublishedParam(other) {
      match published
      case Some(Published) =>
      case Some(Unpublished) =>
      case None => assert p[0] == 'u';
    }
  }

  /** `alias.replace('/', '')`: removes the first `/` only. */
  function NormalizeAlias(alias: string): string {
    RemoveFirst(alias, '/')
  }

  /** An alias free of `/` passes unchanged; otherwise the text before the
      first `/` is joined to the text after it and the alias loses exactly
      one character. */
  lemma NormalizeAliasSpec(alias: string, pre: string, post: string)
    ensures '/' !in alias ==> NormalizeAlias(alias) == alias
    ensures alias == pre + "/" + post && '/' !in pre ==>
              NormalizeAlias(alias) == pre + post && |NormalizeAlias(alias)| == |alias| - 1
  {
    RemoveFirstSpec(alias, '/', pre, post);
  }

  /** `"/demo"` and `"demo"` normalise alike, and a leading slash is ignored
      in exactly the aliases that hold no other `/`. */
  lemma LeadingSlashIgnored(alias: string)
    ensures NormalizeAlias("/" + alias) == NormalizeAlias(alias) <==> '/' !in alias
  {
    RemoveFirstSpec("/" + alias, '/', "", alias);
    assert "/" + alias == "" + "/" + alias;
    RemoveFirstSpec(alias, '/', "", "");
  }

  /** Only the first `/` goes: a second one survives and reaches the query,
      where the server reads it as a parameter boundary. */
  lemma SecondSlashSurvives(pre: string, mid: string, post: string)
    requires '/' !in pre
    ensures NormalizeAlias(pre + "/" + mid + "/" + post) == pre + mid + "/" + post
    ensures '/' in NormalizeAlias(pre + "/" + mid + "/" + post)
  {
    var alias := pre + "/" + mid + "/" + post;
    assert alias == pre + "/" + (mid + "/" + post);
    RemoveFirstSpec(alias, '/', pre, mid + "/" + post);
    assert (pre + mid + "/" + post)[|pre| + |mid|] == '/';
  }

  // ---------------------------------------------------------------------
  // Download paths

  /** `location + '/' + file.filename`. */
  function Destination(location: string, filename: string): (dest: string)
    ensures |dest| == |location| + 1 + |filename|
    ensures dest[..|location|] == location && dest[|location|] == '/'
    ensures dest[|location| + 1..] == filename
  {
    location + "/" + filename
  }

  /** `destination + '.part'`: a different path that has the destination as
      a proper prefix. */
  function PartPath(dest: string): (part: string)
    ensures part != dest && |dest| < |part|
    ensures part[..|dest|] == dest && part[|dest|..] == ".part"
  {
    dest + ".part"
  }
}
