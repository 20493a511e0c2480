/** The promises behind `_request` and `download`, as settle-once state
    machines. Each callback of the source is an event; `resolve` and `reject`
    both go through Settle, which lets the first of them decide the outcome
    and ignores every later one, as a JavaScript promise does. The callbacks
    never `return` after settling, so an event after the decisive one still
    runs (and, for `_request`, still accumulates the body). When `get`
    refuses its URL it throws inside the executor: the promise constructor
    turns that into a rejection, and no callback is ever installed, so the
    machine stops listening. */
module Outcomes {
  import opened Wrappers
  import opened Strings

  /** The reasons a promise of the client is rejected. */
  datatype Error =
    | NotConfigured              // "ContentDM settings are not set."
    | InvalidUrl                 // what `get` throws on a URL that is not absolute
    | InvalidProtocol            // what `get` throws on an `https:` URL
    | RequestFailed(status: int) // "Request Failed." with the status code
    | MalformedResponse          // what `JSON.parse` threw
    | RenameFailed(reason: string) // the error passed to the `rename` callback

  datatype Outcome<T> = Pending | Resolved(value: T) | Rejected(error: Error)

  /** A call to `resolve` or `reject`: it decides a pending promise and
      changes nothing once the promise is settled. */
  function Settle<T>(o: Outcome<T>, next: Outcome<T>): (r: Outcome<T>)
    requires !next.Pending?
    ensures !r.Pending?
    ensures o.Pending? ==> r == next
    ensures !o.Pending? ==> r == o
  {
    if o.Pending? then next else o
  }

  /** Settle-once: whatever two `resolve`/`reject` calls follow each other,
      the second changes nothing, and on a pending promise the first one
      decides. */
  lemma SettleOnce<T>(o: Outcome<T>, first: Outcome<T>, second: Outcome<T>)
    requires !first.Pending? && !second.Pending?
    ensures Settle(Settle(o, first), second) == Settle(o, first)
    ensures o.Pending? ==> Settle(Settle(o, first), second) == first
  {
  }

  /** Whether the `get` of Node's `http` module takes a URL: it must be
      absolute and its protocol `http:`. On any other string `get` throws
      before sending anything. */
  predicate GetAccepts(url: string) {
    |url| >= 7 && url[..7] == "http://"
  }

  /** What `get` throws on the strings the client can pass it and it does
      not take: ERR_INVALID_PROTOCOL for an `https:` URL, ERR_INVALID_URL
      for the empty string or a bare query string. */
  function GetError(url: string): Error {
    if |url| >= 8 && url[..8] == "https://" then InvalidProtocol else InvalidUrl
  }

  /** `get` takes the URLs of a plain server and refuses those of a TLS
      server, the empty URL and a bare query string. */
  lemma GetAcceptance(rest: string)
    ensures GetAccepts("http://" + rest)
    ensures !GetAccepts("https://" + rest) && GetError("https://" + rest) == InvalidProtocol
    ensures !GetAccepts("") && GetError("") == InvalidUrl
    ensures !GetAccepts("q=" + rest) && GetError("q=" + rest) == InvalidUrl
  {
    assert ("http://" + rest)[..7] == "http://";
    var tls := "https://" + rest;
    assert tls[..8] == "https://" && tls[4] == 's';
    var query := "q=" + rest;
    assert query[0] == 'q';
  }

  // ---------------------------------------------------------------------
  // `_request`

  /** What the HTTP response reports: the status seen on arrival, each
      `data` chunk, and `end`. */
  datatype ResponseEvent = Status(code: int) | Data(chunk: string) | End

  /** The promise, the `rawData` accumulated so far, and whether `get`
      accepted the URL, so that the response callbacks can run at all. */
  datatype RequestState<J> = RequestState(outcome: Outcome<J>, body: string, listening: bool)

  /** The state once the executor has run with `url`, the endpoint followed
      by the query. With an empty endpoint the promise is rejected at once.
      When `get` refuses the URL it throws, which rejects a promise not yet
      settled, and no response ever arrives; otherwise the response callback
      is installed. */
  function RequestStart<J>(endpoint: string, url: string): RequestState<J> {
    var checked := if endpoint == "" then Rejected(NotConfigured) else Pending;
    if GetAccepts(url) then RequestState(checked, "", true)
    else RequestState(Settle(checked, Rejected(GetError(url))), "", false)
  }

  /** `resolve(JSON.parse(rawData))`, or `reject` with what it threw. */
  function ParseOutcome<J>(parse: string -> Option<J>, body: string): (r: Outcome<J>)
    ensures !r.Pending?
  {
    match parse(body)
    case Some(v) => Resolved(v)
    case None => Rejected(MalformedResponse)
  }

  /** One callback: the response callback rejects on a status other than 200
      and starts an empty `rawData`; `data` appends; `end` parses. */
  function RequestStep<J>(parse: string -> Option<J>, st: RequestState<J>, e: ResponseEvent): RequestState<J> {
    if !st.listening then st
    else match e
      case Status(code) =>
        st.(outcome := if code != 200 then Settle(st.outcome, Rejected(RequestFailed(code))) else st.outcome,
            body := "")
      case Data(chunk) => st.(body := st.body + chunk)
      case End => st.(outcome := Settle(st.outcome, ParseOutcome(parse, st.body)))
  }

  /** The state after the events, in order. */
  function RequestRun<J>(parse: string -> Option<J>, st: RequestState<J>, events: seq<ResponseEvent>): RequestState<J>
    decreases |events|
  {
    if events == [] then st
    else RequestStep(parse, RequestRun(parse, st, events[..|events| - 1]), events[|events| - 1])
  }

  lemma {:induction false} RequestRunAppend<J>(parse: string -> Option<J>, st: RequestState<J>, a: seq<ResponseEvent>, b: seq<ResponseEvent>)
    ensures RequestRun(parse, st, a + b) == RequestRun(parse, RequestRun(parse, st, a), b)
    decreases |b|
  {
    if b == [] {
      assert a + b == a;
    } else {
      assert (a + b)[..|a + b| - 1] == a + b[..|b| - 1];
      RequestRunAppend(parse, st, a, b[..|b| - 1]);
    }
  }

  /** Once settled, a request's outcome never changes. */
  lemma {:induction false} RequestSettledStays<J>(parse: string -> Option<J>, st: RequestState<J>, events: seq<ResponseEvent>)
    requires !st.outcome.Pending?
    ensures RequestRun(parse, st, events).outcome == st.outcome
    decreases |events|
  {
    if events != [] {
      RequestSettledStays(parse, st, events[..|events| - 1]);
    }
  }

  /** Without installed callbacks, no event changes anything. */
  lemma {:induction false} StalledRequestStays<J>(parse: string -> Option<J>, st: RequestState<J>, events: seq<ResponseEvent>)
    requires !st.listening
    ensures RequestRun(parse, st, events) == st
    decreases |events|
  {
    if events != [] {
      StalledRequestStays(parse, st, events[..|events| - 1]);
    }
  }

  /** An unconfigured client rejects with NotConfigured, whatever follows;
      when `get` refuses the URL, as it does the bare query string, no body
      is ever read. */
  lemma UnconfiguredRejects<J>(parse: string -> Option<J>, url: string, events: seq<ResponseEvent>)
    ensures RequestRun(parse, RequestStart("", url), events).outcome == Rejected(NotConfigured)
    ensures !GetAccepts(url) ==>
              RequestRun(parse, RequestStart("", url), events) == RequestState(Rejected(NotConfigured), "", false)
  {
    RequestSettledStays(parse, RequestStart("", url), events);
    if !GetAccepts(url) {
      StalledRequestStays(parse, RequestStart("", url), events);
    }
  }

  /** A configured client whose URL `get` refuses rejects with what `get`
      threw, whatever follows, and never reads a body. */
  lemma RefusedRequestRejects<J>(parse: string -> Option<J>, endpoint: string, url: string, events: seq<ResponseEvent>)
    requires endpoint != "" && !GetAccepts(url)
    ensures RequestRun(parse, RequestStart(endpoint, url), events) == RequestState(Rejected(GetError(url)), "", false)
  {
    StalledRequestStays(parse, RequestStart(endpoint, url), events);
  }

  /** A status other than 200 rejects with that status, even when a body that
      parses follows; the body is still read. */
  lemma BadStatusRejects<J>(parse: string -> Option<J>, endpoint: string, url: string, code: int, rest: seq<ResponseEvent>)
    requires endpoint != "" && GetAccepts(url) && code != 200
    ensures RequestRun(parse, RequestStart(endpoint, url), [Status(code)] + rest).outcome == Rejected(RequestFailed(code))
  {
    var st := RequestStart(endpoint, url);
    assert RequestRun(parse, st, [Status(code)]) == RequestStep(parse, st, Status(code)) by {
      assert [Status(code)][..0] == [];
    }
    RequestRunAppend(parse, st, [Status(code)], rest);
    RequestSettledStays(parse, RequestRun(parse, st, [Status(code)]), rest);
  }

  /** The `data` events of a response, one per chunk. */
  function DataEvents(chunks: seq<string>): (events: seq<ResponseEvent>)
    ensures |events| == |chunks|
    ensures forall k :: 0 <= k < |chunks| ==> events[k] == Data(chunks[k])
  {
    seq(|chunks|, k requires 0 <= k < |chunks| => Data(chunks[k]))
  }

  /** `rawData += chunk` over the chunks leaves their concatenation and
      does not touch the outcome. */
  lemma {:induction false} DataAccumulates<J>(parse: string -> Option<J>, st: RequestState<J>, chunks: seq<string>)
    ensures RequestRun(parse, st, DataEvents(chunks))
         == if st.listening then st.(body := st.body + Concat(chunks)) else st
    decreases |chunks|
  {
    var events := DataEvents(chunks);
    if !st.listening {
      StalledRequestStays(parse, st, events);
    } else if chunks == [] {
      assert events == [];
    } else {
      var n := |chunks| - 1;
      assert events[..n] == DataEvents(chunks[..n]);
      DataAccumulates(parse, st, chunks[..n]);
      assert st.body + Concat(chunks[..n]) + chunks[n] == st.body + Concat(chunks);
    }
  }

  /** Status 200, the chunks and `end`: the outcome is the parse of the
      concatenated chunks (a value, or MalformedResponse), whatever follows. */
  lemma OkResponseParses<J>(parse: string -> Option<J>, endpoint: string, url: string, chunks: seq<string>, rest: seq<ResponseEvent>)
    requires endpoint != "" && GetAccepts(url)
    ensures RequestRun(parse, RequestStart(endpoint, url), [Status(200)] + DataEvents(chunks) + [End] + rest).outcome
         == ParseOutcome(parse, Concat(chunks))
  {
    var st0 := RequestStart(endpoint, url);
    var st1 := RequestRun(parse, st0, [Status(200)]);
    assert st1 == RequestState(Pending, "", true) by {
      assert [Status(200)][..0] == [];
    }
    RequestRunAppend(parse, st0, [Status(200)], DataEvents(chunks));
    DataAccumulates(parse, st1, chunks);
    var st2 := RequestRun(parse, st0, [Status(200)] + DataEvents(chunks));
    assert st2 == RequestState(Pending, "" + Concat(chunks), true);
    RequestRunAppend(parse, st0, [Status(200)] + DataEvents(chunks), [End]);
    assert RequestRun(parse, st2, [End]) == RequestStep(parse, st2, End) by {
      assert [End][..0] == [];
    }
    assert "" + Concat(chunks) == Concat(chunks);
    var st3 := RequestRun(parse, st0, [Status(200)] + DataEvents(chunks) + [End]);
    RequestRunAppend(parse, st0, [Status(200)] + DataEvents(chunks) + [End], rest);
    RequestSettledStays(parse, st3, rest);
  }

  /** Only `end` resolves, and only with the parse of the body read before
      it: a request not yet resolved is resolved to `v` afterwards only if
      some `end` arrived when `rawData` parsed to `v`. */
  lemma {:induction false} ResolvedOnlyByParse<J>(parse: string -> Option<J>, st: RequestState<J>, events: seq<ResponseEvent>, v: J)
    requires !st.outcome.Resolved?
    requires RequestRun(parse, st, events).outcome == Resolved(v)
    ensures exists k :: 0 <= k < |events| && events[k] == End
                        && parse(RequestRun(parse, st, events[..k]).body) == Some(v)
    decreases |events|
  {
    var n := |events| - 1;
    var prev := RequestRun(parse, st, events[..n]);
    if prev.outcome.Resolved? {
      ResolvedOnlyByParse(parse, st, events[..n], v);
      var k :| 0 <= k < n && events[..n][k] == End
               && parse(RequestRun(parse, st, events[..n][..k]).body) == Some(v);
      assert events[..n][..k] == events[..k];
    } else {
      assert events[n] == End;
      assert parse(prev.body) == Some(v);
    }
  }

  // ---------------------------------------------------------------------
  // `download`

  /** What the file system reports: the write stream's `finish`, and the
      `rename` callback with its error, if any. */
  datatype DownloadEvent = Finish | Renamed(err: Option<string>)

  /** The effects `download` asks for, in order. */
  datatype FsAction =
    | OpenWrite(path: string)       // createWriteStream
    | Get(url: string)              // http.get, piped into the open stream
    | Close(path: string)           // output.close()
    | Rename(from: string, to: string)

  /** The promise, the effects asked for so far, and whether `get` accepted
      the URL, so that the `finish` and `rename` callbacks can run at all. */
  datatype DownloadState = DownloadState(outcome: Outcome<()>, actions: seq<FsAction>, listening: bool)

  /** The state once the executor has run: resolved already when the
      destination exists, and in every case the partial file opened. A URL
      that `get` refuses (the empty URL of an unconfigured client, the
      `https:` URL of a TLS server) makes it throw, which rejects a promise
      not yet resolved and leaves nothing listening; a URL it takes is
      fetched. */
  function DownloadStart(url: string, destination: string, part: string, destExists: bool): DownloadState {
    var checked := if destExists then Resolved(()) else Pending;
    if GetAccepts(url) then DownloadState(checked, [OpenWrite(part), Get(url)], true)
    else DownloadState(Settle(checked, Rejected(GetError(url))), [OpenWrite(part)], false)
  }

  /** `finish` closes the stream and renames the partial file; the rename
      callback rejects on an error and then resolves in every case. */
  function DownloadStep(destination: string, part: string, st: DownloadState, e: DownloadEvent): DownloadState {
    if !st.listening then st
    else match e
      case Finish => st.(actions := st.actions + [Close(part), Rename(part, destination)])
      case Renamed(err) =>
        var afterReject := if err.Some? then Settle(st.outcome, Rejected(RenameFailed(err.value))) else st.outcome;
        st.(outcome := Settle(afterReject, Resolved(())))
  }

  function DownloadRun(destination: string, part: string, st: DownloadState, events: seq<DownloadEvent>): DownloadState
    decreases |events|
  {
    if events == [] then st
    else DownloadStep(destination, part, DownloadRun(destination, part, st, events[..|events| - 1]), events[|events| - 1])
  }

  lemma {:induction false} DownloadRunAppend(destination: string, part: string, st: DownloadState, a: seq<DownloadEvent>, b: seq<DownloadEvent>)
    ensures DownloadRun(destination, part, st, a + b) == DownloadRun(destination, part, DownloadRun(destination, part, st, a), b)
    decreases |b|
  {
    if b == [] {
      assert a + b == a;
    } else {
      assert (a + b)[..|a + b| - 1] == a + b[..|b| - 1];
      DownloadRunAppend(destination, part, st, a, b[..|b| - 1]);
    }
  }

  /** Once settled, a download's outcome never changes; its actions only
      grow, and whether anything is listening stays as it was. */
  lemma {:induction false} DownloadSettledStays(destination: string, part: string, st: DownloadState, events: seq<DownloadEvent>)
    ensures !st.outcome.Pending? ==> DownloadRun(destination, part, st, events).outcome == st.outcome
    ensures st.actions <= DownloadRun(destination, part, st, events).actions
    ensures DownloadRun(destination, part, st, events).listening == st.listening
    decreases |events|
  {
    if events != [] {
      DownloadSettledStays(destination, part, st, events[..|events| - 1]);
    }
  }

  /** Without installed callbacks, no event changes anything. */
  lemma {:induction false} StalledDownloadStays(destination: string, part: string, st: DownloadState, events: seq<DownloadEvent>)
    requires !st.listening
    ensures DownloadRun(destination, part, st, events) == st
    decreases |events|
  {
    if events != [] {
      StalledDownloadStays(destination, part, st, events[..|events| - 1]);
    }
  }

  /** With a URL that `get` refuses the partial file is opened, nothing is
      fetched, and the promise is rejected with what `get` threw unless the
      destination already existed; nothing the file system reports
      afterwards changes that. */
  lemma RefusedDownloadRejects(url: string, destination: string, part: string, destExists: bool, events: seq<DownloadEvent>)
    requires !GetAccepts(url)
    ensures DownloadRun(destination, part, DownloadStart(url, destination, part, destExists), events)
         == DownloadState(if destExists then Resolved(()) else Rejected(GetError(url)), [OpenWrite(part)], false)
  {
    StalledDownloadStays(destination, part, DownloadStart(url, destination, part, destExists), events);
  }

  /** An existing destination resolves the download, whatever happens next;
      the partial file is still opened and, for a URL `get` takes, the GET
      still issued. */
  lemma ExistingDestinationResolves(url: string, destination: string, part: string, events: seq<DownloadEvent>)
    ensures DownloadRun(destination, part, DownloadStart(url, destination, part, true), events).outcome == Resolved(())
    ensures [OpenWrite(part)]
         <= DownloadRun(destination, part, DownloadStart(url, destination, part, true), events).actions
    ensures GetAccepts(url) ==>
              [OpenWrite(part), Get(url)]
              <= DownloadRun(destination, part, DownloadStart(url, destination, part, true), events).actions
    ensures !GetAccepts(url) ==>
              DownloadRun(destination, part, DownloadStart(url, destination, part, true), events).actions
              == [OpenWrite(part)]
  {
    if !GetAccepts(url) {
      RefusedDownloadRejects(url, destination, part, true, events);
    }
    DownloadSettledStays(destination, part, DownloadStart(url, destination, part, true), events);
  }

  /** A failed rename rejects with its error, although `resolve()` follows,
      and nothing after changes that. */
  lemma RenameErrorRejects(url: string, destination: string, part: string, reason: string, rest: seq<DownloadEvent>)
    requires GetAccepts(url)
    ensures DownloadRun(destination, part, DownloadStart(url, destination, part, false),
                        [Finish, Renamed(Some(reason))] + rest).outcome
         == Rejected(RenameFailed(reason))
  {
    var st := DownloadStart(url, destination, part, false);
    var two := [Finish, Renamed(Some(reason))];
    assert two[..1] == [Finish] && [Finish][..0] == [];
    DownloadRunAppend(destination, part, st, two, rest);
    DownloadSettledStays(destination, part, DownloadRun(destination, part, st, two), rest);
  }

  /** A download of a URL `get` takes to a fresh destination whose rename
      succeeds resolves after exactly: open the partial file, GET, close it,
      rename it onto the destination. */
  lemma CleanDownload(url: string, destination: string, part: string)
    requires GetAccepts(url)
    ensures DownloadRun(destination, part, DownloadStart(url, destination, part, false), [Finish, Renamed(None)])
         == DownloadState(Resolved(()), [OpenWrite(part), Get(url), Close(part), Rename(part, destination)], true)
  {
    assert [Finish, Renamed(None)][..1] == [Finish] && [Finish][..0] == [];
  }

  /** Every effect of a download is one of its four: nothing but the rename
      of the partial file ever writes the destination. */
  predicate DownloadAction(url: string, destination: string, part: string, a: FsAction) {
    a == OpenWrite(part) || a == Get(url) || a == Close(part) || a == Rename(part, destination)
  }

  lemma {:induction false} OnlyRenamePublishes(url: string, destination: string, part: string, destExists: bool, events: seq<DownloadEvent>)
    ensures forall a :: a in DownloadRun(destination, part, DownloadStart(url, destination, part, destExists), events).actions
              ==> DownloadAction(url, destination, part, a)
    decreases |events|
  {
    if events != [] {
      OnlyRenamePublishes(url, destination, part, destExists, events[..|events| - 1]);
    }
  }

  /** A download to a fresh destination stays pending exactly while `get`
      has taken the URL and the rename callback has not run. */
  lemma {:induction false} PendingUntilRenamed(url: string, destination: string, part: string, events: seq<DownloadEvent>)
    ensures DownloadRun(destination, part, DownloadStart(url, destination, part, false), events).outcome.Pending?
        <==> GetAccepts(url) && forall k :: 0 <= k < |events| ==> !events[k].Renamed?
    decreases |events|
  {
    if !GetAccepts(url) {
      RefusedDownloadRejects(url, destination, part, false, events);
    } else if events != [] {
      var n := |events| - 1;
      PendingUntilRenamed(url, destination, part, events[..n]);
      var prev := DownloadRun(destination, part, DownloadStart(url, destination, part, false), events[..n]);
      DownloadSettledStays(destination, part, DownloadStart(url, destination, part, false), events[..n]);
      if !prev.outcome.Pending? {
        var k :| 0 <= k < n && events[..n][k].Renamed?;
        assert events[k].Renamed?;
      }
    }
  }
}
