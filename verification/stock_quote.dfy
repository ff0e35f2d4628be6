/**
 The stock-quote HTTP function: it resolves a ticker symbol from the request,
 looks the symbol up, and answers with a JSON body and a status code
 (200, 400, 404 or 500).

 The request is the optional `symbol` query parameter plus the request URL.
 The quote service is a lookup from an upper-case symbol to either a table of
 numeric fields or a raised exception. The wall clock is given as the date
 text and the Unix timestamp that the response reports.
 */
module StockQuote {
  import opened Wrappers
  import opened Strings
  import Rounding

  // ---------------------------------------------------------------------------
  // Constants of the handler
  // ---------------------------------------------------------------------------

  /** Longest symbol accepted from the URL path. */
  const MaxPathSymbolLength := 5

  const CurrentPriceKey := "currentPrice"
  const RegularMarketPriceKey := "regularMarketPrice"

  const MissingSymbolMessage := "Stock symbol parameter is required. Use ?symbol=AAPL or /stock_quote/AAPL"
  const NotFoundMessagePrefix := "Could not retrieve price for symbol "
  const InternalErrorMessage := "Internal server error occurred"
  const JsonMimeType := "application/json"

  // ---------------------------------------------------------------------------
  // Symbol resolution
  // ---------------------------------------------------------------------------

  /** Python truthiness of `req.params.get('symbol')`: present and non-empty. */
  predicate Truthy(query: Option<string>)
  {
    query.Some? && |query.value| > 0
  }

  /**
   Where the text after the last `/` of the URL begins: everything from there
   on is free of `/`, and it is the start of the URL or follows a `/`.
   */
  function SegmentStart(url: string): (k: nat)
    ensures k <= |url|
    ensures '/' !in url[k..]
    ensures k == 0 || url[k - 1] == '/'
  {
    var slashPieces := Split(url, '/');
    LastPiece(url, '/');
    |url| - |slashPieces[|slashPieces| - 1]|
  }

  /**
   The symbol candidate read from the URL: the piece after the last `/`,
   cut before its first `?`. It starts where that piece starts, holds no
   `/` or `?`, and runs to the end of the URL or up to a `?`.
   */
  function PathCandidate(url: string): (c: string)
    ensures '/' !in c && '?' !in c
    ensures SegmentStart(url) + |c| <= |url|
    ensures url[SegmentStart(url)..SegmentStart(url) + |c|] == c
    ensures SegmentStart(url) + |c| == |url| || url[SegmentStart(url) + |c|] == '?'
  {
    var slashPieces := Split(url, '/');
    var tail := slashPieces[|slashPieces| - 1];
    var c := Split(tail, '?')[0];
    LastPiece(url, '/');
    FirstPiece(tail, '?');
    PrefixOfSuffix(url, SegmentStart(url), tail, c);
    c
  }

  /**
   A `?`-free prefix `c` of the `/`-free suffix `tail` of `url` that starts at
   `k`, and ends the tail or stops at a `?`, sits in `url` at `k`.
   */
  lemma PrefixOfSuffix(url: string, k: nat, tail: string, c: string)
    requires k <= |url| && tail == url[k..] && '/' !in tail
    requires |c| <= |tail| && tail[..|c|] == c && '?' !in c
    requires |c| == |tail| || tail[|c|] == '?'
    ensures '/' !in c
    ensures k + |c| <= |url| && url[k..k + |c|] == c
    ensures k + |c| == |url| || url[k + |c|] == '?'
  {
    assert forall i :: 0 <= i < |c| ==> c[i] == tail[i];
  }

  /** The path check: non-empty, letters only, at most five characters. */
  predicate ValidPathSymbol(candidate: string)
  {
    |candidate| > 0 && IsAlpha(candidate) && |candidate| <= MaxPathSymbolLength
  }

  /**
   The path check gives the same answer before and after the upper-casing
   `ResolveSymbol` applies, so a symbol taken from the path still passes it
   afterwards.
   */
  lemma ValidPathSymbolUpper(c: string)
    ensures ValidPathSymbol(Upper(c)) <==> ValidPathSymbol(c)
  {
    UpperKeepsAlpha(c);
  }

  /** A candidate that passes the path check holds neither `/` nor `?`. */
  lemma ValidPathSymbolNoSeparators(c: string)
    requires ValidPathSymbol(c)
    ensures '/' !in c && '?' !in c
  {
    assert forall i :: 0 <= i < |c| ==> IsLetter(c[i]);
  }

  /**
   The symbol the handler works with, upper-cased, or `None` when neither the
   query parameter nor the URL path supplies one.
   */
  function ResolveSymbol(query: Option<string>, url: string): (r: Option<string>)
    ensures r.Some? <==> Truthy(query) || ValidPathSymbol(PathCandidate(url))
    ensures r.Some? ==> |r.value| > 0 && NoLower(r.value)
    ensures r.Some? && !Truthy(query) ==> IsAlpha(r.value) && |r.value| <= MaxPathSymbolLength
    ensures Truthy(query) ==> r == Some(Upper(query.value))
    ensures !Truthy(query) && r.Some? ==> r.value == Upper(PathCandidate(url))
  {
    var raw :=
      if Truthy(query) then query
      else
        var candidate := PathCandidate(url);
        if ValidPathSymbol(candidate) then Some(candidate) else None;
    match raw
    case None => None
    case Some(s) =>
      UpperKeepsAlpha(s);
      Some(Upper(s))
  }

  // ---------------------------------------------------------------------------
  // Price selection and outcome
  // ---------------------------------------------------------------------------

  /** Python truthiness of a numeric price. */
  predicate TruthyPrice(p: real)
  {
    p != 0.0
  }

  /**
   `info.get('currentPrice') or info.get('regularMarketPrice')`: a field that
   is absent or holds `None` is a missing key of `info`.
   */
  function SelectPrice(info: map<string, real>): (r: Option<real>)
    ensures CurrentPriceKey in info && TruthyPrice(info[CurrentPriceKey]) ==>
      r == Some(info[CurrentPriceKey])
    ensures ((CurrentPriceKey !in info || !TruthyPrice(info[CurrentPriceKey])) &&
      RegularMarketPriceKey in info) ==> r == Some(info[RegularMarketPriceKey])
    ensures r.Some? ==>
      (CurrentPriceKey in info && r.value == info[CurrentPriceKey]) ||
      (RegularMarketPriceKey in info && r.value == info[RegularMarketPriceKey])
    ensures r.None? <==>
      RegularMarketPriceKey !in info &&
      (CurrentPriceKey !in info || !TruthyPrice(info[CurrentPriceKey]))
  {
    if CurrentPriceKey in info && TruthyPrice(info[CurrentPriceKey]) then Some(info[CurrentPriceKey])
    else if RegularMarketPriceKey in info then Some(info[RegularMarketPriceKey])
    else None
  }

  /** What the quote service answered for a symbol. */
  datatype Fetch = Fetched(info: map<string, real>) | Raised

  /** The four ways a request ends. */
  datatype Outcome =
    | MissingSymbol
    | NoPrice(symbol: string)
    | Quote(symbol: string, price: real)
    | Failed

  /**
   The decision the handler takes: no symbol, an exception from the quote
   service, no price, or a quote. The service is asked only about the
   resolved symbol.
   */
  function Decide(query: Option<string>, url: string, lookup: string -> Fetch): (o: Outcome)
    ensures o.MissingSymbol? <==> ResolveSymbol(query, url).None?
    ensures o.Failed? <==>
      ResolveSymbol(query, url).Some? && lookup(ResolveSymbol(query, url).value).Raised?
    ensures o.NoPrice? || o.Quote? ==>
      ResolveSymbol(query, url) == Some(o.symbol) && lookup(o.symbol).Fetched?
    ensures o.NoPrice? ==> SelectPrice(lookup(o.symbol).info).None?
    ensures o.Quote? ==> SelectPrice(lookup(o.symbol).info) == Some(o.price)
  {
    match ResolveSymbol(query, url)
    case None => MissingSymbol
    case Some(symbol) =>
      match lookup(symbol)
      case Raised => Failed
      case Fetched(info) =>
        match SelectPrice(info)
        case None => NoPrice(symbol)
        case Some(price) => Quote(symbol, price)
  }

  // ---------------------------------------------------------------------------
  // Response
  // ---------------------------------------------------------------------------

  /** The JSON values the handler puts in its bodies. */
  datatype Json = JStr(str: string) | JNum(num: real) | JInt(whole: int)

  datatype Response = Response(status: int, body: map<string, Json>, mimetype: string)

  /** An error body: one `error` key holding the message. */
  function ErrorBody(message: string): map<string, Json>
  {
    map["error" := JStr(message)]
  }

  /** Turns an outcome into the HTTP response; `date` and `time` come from the clock. */
  function Render(o: Outcome, date: string, time: int): (resp: Response)
    ensures resp.mimetype == JsonMimeType
    ensures resp.status in {200, 400, 404, 500}
    ensures resp.status == 200 <==> o.Quote?
    ensures resp.status == 400 <==> o.MissingSymbol?
    ensures resp.status == 404 <==> o.NoPrice?
    ensures resp.status == 500 <==> o.Failed?
    ensures resp.status == 200 ==>
      && resp.body.Keys == {"date", "price", "symbol", "time"}
      && resp.body["symbol"] == JStr(o.symbol)
      && resp.body["price"] == JNum(Rounding.Round2(o.price))
      && resp.body["date"] == JStr(date)
      && resp.body["time"] == JInt(time)
    ensures resp.status != 200 ==> resp.body.Keys == {"error"}
  {
    match o
    case MissingSymbol => Response(400, ErrorBody(MissingSymbolMessage), JsonMimeType)
    case NoPrice(symbol) => Response(404, ErrorBody(NotFoundMessagePrefix + symbol), JsonMimeType)
    case Failed => Response(500, ErrorBody(InternalErrorMessage), JsonMimeType)
    case Quote(symbol, price) =>
      var body := map[
        "date" := JStr(date),
        "price" := JNum(Rounding.Round2(price)),
        "symbol" := JStr(symbol),
        "time" := JInt(time)];
      Response(200, body, JsonMimeType)
  }

  /**
   The whole handler: resolve the symbol, consult the quote service, answer.
   */
  function Handle(query: Option<string>, url: string, lookup: string -> Fetch, date: string, time: int): (resp: Response)
    ensures resp.status in {200, 400, 404, 500}
    ensures resp.mimetype == JsonMimeType
    ensures resp.status == 400 <==> ResolveSymbol(query, url).None?
    ensures resp.status == 400 ==> resp.body == ErrorBody(MissingSymbolMessage)
    ensures resp.status == 500 <==>
      ResolveSymbol(query, url).Some? && lookup(ResolveSymbol(query, url).value).Raised?
    ensures resp.status == 500 ==> resp.body == ErrorBody(InternalErrorMessage)
    ensures resp.status == 404 <==>
      && ResolveSymbol(query, url).Some?
      && lookup(ResolveSymbol(query, url).value).Fetched?
      && SelectPrice(lookup(ResolveSymbol(query, url).value).info).None?
    ensures resp.status == 404 ==>
      resp.body == ErrorBody(NotFoundMessagePrefix + ResolveSymbol(query, url).value)
    ensures resp.status == 200 ==>
      && resp.body.Keys == {"date", "price", "symbol", "time"}
      && resp.body["symbol"].JStr?
      && ResolveSymbol(query, url) == Some(resp.body["symbol"].str)
      && NoLower(resp.body["symbol"].str)
  {
    Render(Decide(query, url, lookup), date, time)
  }

  // ---------------------------------------------------------------------------
  // Properties of symbol resolution
  // ---------------------------------------------------------------------------

  /** Cutting `seg + post` before its first `?` leaves `seg`. */
  lemma CutBeforeQuery(seg: string, post: string)
    requires '?' !in seg
    requires post == "" || post[0] == '?'
    ensures Split(seg + post, '?')[0] == seg
  {
    if post == "" {
      assert seg + post == seg;
      SplitNoSep(seg, '?');
    } else {
      assert seg + post == seg + ['?'] + post[1..];
      FirstPieceBefore(seg, post[1..], '?');
    }
  }

  /** The candidate is the first `?`-piece of whatever the last `/`-piece is. */
  lemma PathCandidateOfTail(url: string, tail: string)
    requires var pieces := Split(url, '/'); pieces[|pieces| - 1] == tail
    ensures PathCandidate(url) == Split(tail, '?')[0]
  {
    var pieces := Split(url, '/');
    assert PathCandidate(url) == Split(pieces[|pieces| - 1], '?')[0];
  }

  /**
   The URL candidate is the last `/`-piece cut at its first `?`: for any
   `pre`, a slash, a piece `seg` without `/` or `?`, and a tail that is empty
   or a `?` followed by text without `/`, the candidate is `seg`.
   */
  lemma PathCandidateOf(pre: string, seg: string, post: string)
    requires '/' !in seg && '?' !in seg
    requires '/' !in post
    requires post == "" || post[0] == '?'
    ensures PathCandidate(pre + "/" + seg + post) == seg
  {
    var url := pre + "/" + seg + post;
    assert url == pre + ['/'] + (seg + post);
    LastPieceOf(url, pre, seg + post, '/');
    PathCandidateOfTail(url, seg + post);
    CutBeforeQuery(seg, post);
  }

  /** A URL without any `/` is its own last piece; it is cut at its first `?`. */
  lemma PathCandidateNoSlash(seg: string, post: string)
    requires '/' !in seg + post && '?' !in seg
    requires post == "" || post[0] == '?'
    ensures PathCandidate(seg + post) == seg
  {
    SplitNoSep(seg + post, '/');
    PathCandidateOfTail(seg + post, seg + post);
    CutBeforeQuery(seg, post);
  }

  /**
   A non-empty query parameter always wins: the URL is not consulted and the
   value is not checked, only upper-cased.
   */
  lemma QueryWins(q: string, url1: string, url2: string)
    requires |q| > 0
    ensures ResolveSymbol(Some(q), url1) == ResolveSymbol(Some(q), url2) == Some(Upper(q))
  {
  }

  /** An absent and an empty query parameter both fall back to the path. */
  lemma EmptyQueryFallsBack(url: string)
    ensures ResolveSymbol(Some(""), url) == ResolveSymbol(None, url)
  {
  }

  /**
   Without a usable query parameter, a path symbol of one to five letters is
   taken and upper-cased, whatever comes before the last slash.
   */
  lemma PathSymbolAccepted(query: Option<string>, pre: string, seg: string, post: string)
    requires !Truthy(query)
    requires ValidPathSymbol(seg)
    requires '/' !in post && (post == "" || post[0] == '?')
    ensures ResolveSymbol(query, pre + "/" + seg + post) == Some(Upper(seg))
  {
    ValidPathSymbolNoSeparators(seg);
    PathCandidateOf(pre, seg, post);
  }

  /**
   Without a usable query parameter, a last path piece that is empty, holds a
   non-letter or is longer than five gives no symbol.
   */
  lemma PathSymbolRejected(query: Option<string>, pre: string, seg: string, post: string)
    requires !Truthy(query)
    requires !ValidPathSymbol(seg)
    requires '/' !in seg && '?' !in seg
    requires '/' !in post && (post == "" || post[0] == '?')
    ensures ResolveSymbol(query, pre + "/" + seg + post) == None
  {
    PathCandidateOf(pre, seg, post);
  }

  /** A URL ending in `/` (before any query string) gives no symbol from its path. */
  lemma TrailingSlashRejected(pre: string, post: string)
    requires '/' !in post && (post == "" || post[0] == '?')
    ensures ResolveSymbol(None, pre + "/" + post) == None
  {
    assert pre + "/" + post == pre + "/" + "" + post;
    PathSymbolRejected(None, pre, "", post);
  }

  /** The bare endpoint `/api/stock_quote` gives no symbol: `_` is not a letter. */
  lemma BareEndpointRejected(host: string, post: string)
    requires '/' !in post && (post == "" || post[0] == '?')
    ensures ResolveSymbol(None, host + "/api/stock_quote" + post) == None
  {
    assert !IsLetter("stock_quote"[5]);
    assert host + "/api/stock_quote" + post == (host + "/api") + "/" + "stock_quote" + post;
    PathSymbolRejected(None, host + "/api", "stock_quote", post);
  }

  /** A path piece of six letters is too long. */
  lemma SixLettersRejected(pre: string)
    ensures ResolveSymbol(None, pre + "/" + "GOOGLE") == None
  {
    assert pre + "/" + "GOOGLE" == pre + "/" + "GOOGLE" + "";
    PathSymbolRejected(None, pre, "GOOGLE", "");
  }

  /**
   `?symbol=aapl`, `?symbol=AAPL` and `/stock_quote/aapl` all resolve to `AAPL`.
   */
  lemma SpellingsAgree(host: string, url: string)
    ensures ResolveSymbol(Some("aapl"), url) == Some("AAPL")
    ensures ResolveSymbol(Some("AAPL"), url) == Some("AAPL")
    ensures ResolveSymbol(None, host + "/api/stock_quote/aapl") == Some("AAPL")
  {
    assert Upper("aapl") == "AAPL";
    assert Upper("AAPL") == "AAPL";
    assert ValidPathSymbol("aapl") by {
      assert forall i :: 0 <= i < 4 ==> IsLetter("aapl"[i]);
    }
    assert host + "/api/stock_quote/aapl" == (host + "/api/stock_quote") + "/" + "aapl" + "";
    PathSymbolAccepted(None, host + "/api/stock_quote", "aapl", "");
  }

  /** The query value is not validated: digits and punctuation pass through. */
  lemma QueryNotValidated(url: string)
    ensures ResolveSymbol(Some("brk.b"), url) == Some("BRK.B")
    ensures ResolveSymbol(Some("123456"), url) == Some("123456")
  {
    assert Upper("brk.b") == "BRK.B";
    assert Upper("123456") == "123456";
  }

  /**
   The request URL includes its query string, so a `/` inside the query string
   moves the last piece into it: `/api/stock_quote?ref=a/b` resolves to `B`.
   */
  lemma SlashInQueryString(host: string)
    ensures ResolveSymbol(None, host + "/api/stock_quote?ref=a/b") == Some("B")
  {
    assert host + "/api/stock_quote?ref=a/b" == (host + "/api/stock_quote?ref=a") + "/" + "b" + "";
    assert ValidPathSymbol("b");
    PathSymbolAccepted(None, host + "/api/stock_quote?ref=a", "b", "");
    assert Upper("b") == "B";
  }

  /** Resolving is stable under upper-casing the query parameter. */
  lemma ResolveUpperQuery(q: string, url: string)
    requires |q| > 0
    ensures ResolveSymbol(Some(Upper(q)), url) == ResolveSymbol(Some(q), url)
  {
    UpperIdempotent(q);
  }

  // ---------------------------------------------------------------------------
  // Properties of the handler
  // ---------------------------------------------------------------------------

  /**
   Without a symbol the quote service is never consulted: the response is
   the same whatever the service would answer.
   */
  lemma NoLookupWithoutSymbol(query: Option<string>, url: string, lookup1: string -> Fetch,
                              lookup2: string -> Fetch, date: string, time: int)
    requires ResolveSymbol(query, url).None?
    ensures Handle(query, url, lookup1, date, time) == Handle(query, url, lookup2, date, time)
    ensures Handle(query, url, lookup1, date, time) == Response(400, ErrorBody(MissingSymbolMessage), JsonMimeType)
  {
  }

  /**
   The quote service is consulted only about the resolved upper-case symbol:
   two services that agree on it give the same response.
   */
  lemma LookupOnlyAtSymbol(query: Option<string>, url: string, lookup1: string -> Fetch,
                           lookup2: string -> Fetch, date: string, time: int)
    requires ResolveSymbol(query, url).Some?
    requires lookup1(ResolveSymbol(query, url).value) == lookup2(ResolveSymbol(query, url).value)
    ensures Handle(query, url, lookup1, date, time) == Handle(query, url, lookup2, date, time)
  {
  }

  /**
   A zero `currentPrice` is falsy and falls through: with no
   `regularMarketPrice` the answer is 404 naming the upper-case symbol.
   */
  lemma ZeroCurrentPriceNotFound(query: Option<string>, url: string, lookup: string -> Fetch,
                                 date: string, time: int, info: map<string, real>)
    requires ResolveSymbol(query, url).Some?
    requires lookup(ResolveSymbol(query, url).value) == Fetched(info)
    requires CurrentPriceKey in info && info[CurrentPriceKey] == 0.0
    requires RegularMarketPriceKey !in info
    ensures Handle(query, url, lookup, date, time).status == 404
    ensures Handle(query, url, lookup, date, time).body ==
      ErrorBody(NotFoundMessagePrefix + ResolveSymbol(query, url).value)
  {
  }

  /**
   A zero `currentPrice` falls through to `regularMarketPrice` when that is
   present: the answer is 200 with that price, rounded, whatever its value.
   */
  lemma ZeroCurrentPriceFallsThrough(query: Option<string>, url: string, lookup: string -> Fetch,
                                     date: string, time: int, info: map<string, real>)
    requires ResolveSymbol(query, url).Some?
    requires lookup(ResolveSymbol(query, url).value) == Fetched(info)
    requires CurrentPriceKey in info && info[CurrentPriceKey] == 0.0
    requires RegularMarketPriceKey in info
    ensures Handle(query, url, lookup, date, time).status == 200
    ensures Handle(query, url, lookup, date, time).body["price"] ==
      JNum(Rounding.Round2(info[RegularMarketPriceKey]))
  {
  }

  /**
   A successful answer carries the chosen price rounded to two decimals,
   within half a cent of it, and the resolved symbol.
   */
  lemma QuoteBody(query: Option<string>, url: string, lookup: string -> Fetch, date: string, time: int)
    requires Handle(query, url, lookup, date, time).status == 200
    ensures var resp := Handle(query, url, lookup, date, time);
      var symbol := ResolveSymbol(query, url).value;
      && lookup(symbol).Fetched?
      && SelectPrice(lookup(symbol).info).Some?
      && resp.body["symbol"] == JStr(symbol)
      && resp.body["date"] == JStr(date)
      && resp.body["time"] == JInt(time)
      && resp.body["price"] == JNum(Rounding.Round2(SelectPrice(lookup(symbol).info).value))
      && -0.005 <= resp.body["price"].num - SelectPrice(lookup(symbol).info).value <= 0.005
  {
  }
}
