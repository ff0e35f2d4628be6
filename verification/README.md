# Stock-quote function: a verified model

This project models the stock-quote HTTP function of the stocktrader setup
(`azure/modules/function_app/app/stock_quote/__init__.py`, function `main`).
The function accepts a request in one of two forms, `/api/stock_quote?symbol=AAPL`
or `/api/stock_quote/AAPL`. It resolves a ticker symbol, asks the quote service
for the symbol's data, and answers with a JSON body and one of four status codes.

- **Symbol resolution.** A non-empty `symbol` query parameter wins outright and is
  not validated. Otherwise the candidate is the text after the last `/` of the
  request URL, cut before its first `?`. That candidate is accepted only if it is
  non-empty, all letters and at most five characters long. The symbol is then
  upper-cased.
- **Outcome.** No symbol gives 400. If the quote service raises, the answer is 500
  with a fixed message. If there is no price, the answer is 404 naming the symbol.
  Otherwise the answer is 200 with exactly the keys `date`, `price`, `symbol` and
  `time`. The price is `currentPrice` when that field is truthy and
  `regularMarketPrice` otherwise. It is rounded to two decimals.

Modules:

- `Wrappers` (`wrappers.dfy`): the `Option` datatype, for Python's `None`.
- `Strings` (`strings.dfy`): the Python string operations the handler uses.
  These are `split` on one separator (with `join`, its inverse), `isalpha` and
  `upper`, all restricted to ASCII.
- `Rounding` (`rounding.dfy`): `round(x, 2)` on an exact real, with ties going
  to even.
- `StockQuote` (`stock_quote.dfy`): `ResolveSymbol`, `SelectPrice`, `Decide`
  (the outcome), `Render` (the response), `Handle` (the whole handler), and the
  lemmas about them.

The model represents the rest of the system as follows:

- The request is the optional query parameter plus the URL string.
- The quote service (`yf.Ticker(symbol).info`) is a total function from a symbol
  to either a table of numeric fields (`Fetched`) or a raised exception (`Raised`).
- The wall clock is two parameters: the date text and the Unix timestamp.

Two behaviours of the code are worth knowing, and both are stated as lemmas:

- The guard `len(url_parts) > 0` always holds, because `split` never returns an
  empty list (`Strings.Split`).
- `req.url` includes the query string. A `/` inside the query string therefore
  moves the "last path piece" into the query text, so
  `/api/stock_quote?ref=a/b` resolves to `B` (`StockQuote.SlashInQueryString`).

## Model

| member | source | states |
|---|---|---|
| Strings.Split | azure/modules/function_app/app/stock_quote/__init__.py:23-24 | `url.split('/')` returns at least one piece, so the length guard always holds; no piece contains the separator, and joining the pieces with it gives back the string |
| Strings.SplitOfJoin | azure/modules/function_app/app/stock_quote/__init__.py:23 | round trip: splitting a join of separator-free pieces gives back exactly those pieces, so `split` is determined by the two properties above |
| Strings.SplitNoSep | azure/modules/function_app/app/stock_quote/__init__.py:28 | a string without the separator splits into itself alone, so a candidate without `?` is kept whole |
| Strings.FirstPiece | azure/modules/function_app/app/stock_quote/__init__.py:28 | `split('?')[0]` is a `?`-free prefix that is either the whole text or followed by `?`, i.e. the text before the first `?` |
| Strings.LastPiece | azure/modules/function_app/app/stock_quote/__init__.py:26 | `url_parts[-1]` is a `/`-free suffix that is either the whole URL or preceded by `/`, i.e. the text after the last `/` |
| Strings.LastPieceAfter | azure/modules/function_app/app/stock_quote/__init__.py:23-26 | for any prefix, the last piece of `pre + "/" + seg` is `seg` when `seg` has no `/` |
| Strings.FirstPieceBefore | azure/modules/function_app/app/stock_quote/__init__.py:28 | for any tail, the first piece of `seg + "?" + post` is `seg` when `seg` has no `?` |
| Strings.UpperChar | azure/modules/function_app/app/stock_quote/__init__.py:41 | an upper-cased character is never lower-case; letters stay letters and non-letters stay non-letters; only `a`-`z` change, each to the letter 32 code points below |
| Strings.Upper | azure/modules/function_app/app/stock_quote/__init__.py:41 | `upper()` keeps the length, changes each character independently of its neighbours, and leaves no lower-case letter |
| Strings.UpperIdempotent | azure/modules/function_app/app/stock_quote/__init__.py:41 | upper-casing twice is upper-casing once |
| Strings.UpperFixedIff | azure/modules/function_app/app/stock_quote/__init__.py:41 | `upper()` leaves a string unchanged exactly when it has no lower-case letter (both directions) |
| Strings.UpperKeepsAlpha | azure/modules/function_app/app/stock_quote/__init__.py:30-41 | upper-casing neither creates nor destroys `isalpha()`, so a validated path symbol is still all letters after line 41 |
| Strings.UpperCaseInsensitive | azure/modules/function_app/app/stock_quote/__init__.py:41 | two strings that differ only in letter case (each position the same character, or the two cases of one letter, 32 code points apart) upper-case to the same symbol |
| Rounding.RoundCents | azure/modules/function_app/app/stock_quote/__init__.py:64 | `round(price, 2)` lands on a number of hundredths with no whole number nearer to `price * 100`; on a tie the number is even |
| Rounding.Round2 | azure/modules/function_app/app/stock_quote/__init__.py:64 | `round(price, 2)` is a whole number of hundredths (the one `RoundCents` picks) within 0.005 of the fetched price |
| Rounding.RoundCentsExact | azure/modules/function_app/app/stock_quote/__init__.py:64 | a price that is already a whole number of hundredths is reported unchanged |
| Rounding.Round2Idempotent | azure/modules/function_app/app/stock_quote/__init__.py:64 | rounding an already rounded price changes nothing |
| StockQuote.ResolveSymbol | azure/modules/function_app/app/stock_quote/__init__.py:17-41 | a symbol exists exactly when the query parameter is non-empty or the path candidate passes the check; every resolved symbol is non-empty with no lower-case letter; a non-empty query parameter gives that parameter upper-cased; otherwise the symbol is the upper-cased path candidate, all letters and at most five long |
| StockQuote.SegmentStart | azure/modules/function_app/app/stock_quote/__init__.py:23-26 | the text after the last `/` starts at the start of the URL or right after a `/`, and holds no `/` itself |
| StockQuote.PathCandidate | azure/modules/function_app/app/stock_quote/__init__.py:23-28 | the candidate starts where the text after the last `/` starts, holds no `/` or `?`, and runs to the end of the URL or up to a `?`, i.e. the last piece cut before its first `?` |
| StockQuote.ValidPathSymbolUpper | azure/modules/function_app/app/stock_quote/__init__.py:30-41 | the path check of line 30 gives the same answer before and after the `upper()` of line 41 (both directions) |
| StockQuote.ValidPathSymbolNoSeparators | azure/modules/function_app/app/stock_quote/__init__.py:23-30 | a candidate that passes the path check holds neither `/` nor `?`, so it cannot straddle the cuts of lines 23 and 28 |
| StockQuote.PathCandidateOf | azure/modules/function_app/app/stock_quote/__init__.py:23-28 | for any prefix, a slash, a piece with no `/` or `?`, and a tail that is empty or a `/`-free `?...`, the candidate is exactly that piece |
| StockQuote.PathCandidateNoSlash | azure/modules/function_app/app/stock_quote/__init__.py:23-28 | a URL without `/` is its own last piece and is cut before its first `?` |
| StockQuote.QueryWins | azure/modules/function_app/app/stock_quote/__init__.py:18-21 | with a non-empty query parameter the URL does not matter, and the result is the upper-cased parameter |
| StockQuote.EmptyQueryFallsBack | azure/modules/function_app/app/stock_quote/__init__.py:18-21 | an empty `?symbol=` is falsy and behaves exactly like an absent parameter |
| StockQuote.QueryNotValidated | azure/modules/function_app/app/stock_quote/__init__.py:18-21 | the query value is not checked for letters or length: `brk.b` gives `BRK.B` and `123456` gives `123456` |
| StockQuote.PathSymbolAccepted | azure/modules/function_app/app/stock_quote/__init__.py:23-31 | with no usable query parameter, a last path piece of one to five letters is taken and upper-cased, whatever comes before the last slash and whatever query string follows |
| StockQuote.PathSymbolRejected | azure/modules/function_app/app/stock_quote/__init__.py:30-31 | with no usable query parameter, a last path piece that is empty, holds a non-letter or is longer than five gives no symbol |
| StockQuote.TrailingSlashRejected | azure/modules/function_app/app/stock_quote/__init__.py:23-31 | a URL ending in `/`, before any query string, gives no symbol |
| StockQuote.BareEndpointRejected | azure/modules/function_app/app/stock_quote/__init__.py:30 | the bare endpoint `/api/stock_quote` gives no symbol because `_` is not a letter |
| StockQuote.SixLettersRejected | azure/modules/function_app/app/stock_quote/__init__.py:30 | a six-letter path piece such as `GOOGLE` is too long |
| StockQuote.SpellingsAgree | azure/modules/function_app/app/stock_quote/__init__.py:18-41 | `?symbol=aapl`, `?symbol=AAPL` and `/api/stock_quote/aapl` all resolve to `AAPL` |
| StockQuote.SlashInQueryString | azure/modules/function_app/app/stock_quote/__init__.py:23-28 | because the URL includes its query string, `/api/stock_quote?ref=a/b` resolves to `B` |
| StockQuote.ResolveUpperQuery | azure/modules/function_app/app/stock_quote/__init__.py:41 | upper-casing the query parameter beforehand does not change the resolved symbol |
| StockQuote.SelectPrice | azure/modules/function_app/app/stock_quote/__init__.py:48 | a truthy `currentPrice` always wins; when `currentPrice` is absent or zero and `regularMarketPrice` is present, `regularMarketPrice` is chosen; any chosen price is the value of one of the two fields; there is no price exactly when `regularMarketPrice` is absent and `currentPrice` is absent or zero |
| StockQuote.Decide | azure/modules/function_app/app/stock_quote/__init__.py:18-55 | the outcome is "missing symbol" exactly when none resolves, and "failed" exactly when the service raises for the resolved symbol; "no price" and "quote" carry the resolved symbol and agree with the price selection |
| StockQuote.Render | azure/modules/function_app/app/stock_quote/__init__.py:33-83 | each outcome maps to exactly one status among 200, 400, 404 and 500, always as JSON; a 200 body has exactly the keys `date`, `price`, `symbol`, `time` with the rounded price; every other body has the single key `error` |
| StockQuote.Handle | azure/modules/function_app/app/stock_quote/__init__.py:7-83 | the handler answers only 200, 400, 404 or 500. It gives 400 with the fixed message exactly when no symbol resolves, and 500 with the fixed generic message exactly when the service raises. It gives 404 naming the upper-case symbol exactly when no price is found. A 200 body has exactly four keys and its `symbol` is the resolved upper-case symbol |
| StockQuote.NoLookupWithoutSymbol | azure/modules/function_app/app/stock_quote/__init__.py:33-45 | without a symbol the response does not depend on the quote service at all: it is never consulted |
| StockQuote.LookupOnlyAtSymbol | azure/modules/function_app/app/stock_quote/__init__.py:41-45 | the quote service is consulted only about the resolved upper-case symbol: two services that agree there give the same response |
| StockQuote.ZeroCurrentPriceNotFound | azure/modules/function_app/app/stock_quote/__init__.py:48-55 | for any info table, a zero `currentPrice` is falsy; with no `regularMarketPrice` the answer is 404 naming the symbol |
| StockQuote.ZeroCurrentPriceFallsThrough | azure/modules/function_app/app/stock_quote/__init__.py:48-75 | for any info table, a zero `currentPrice` falls through to a present `regularMarketPrice`: the answer is 200 with that price rounded to two decimals |
| StockQuote.QuoteBody | azure/modules/function_app/app/stock_quote/__init__.py:57-75 | a 200 answer reports the clock's date and timestamp, the resolved symbol, and exactly `round(price, 2)` of the selected field, which lies within half a cent of it |

## Left out

- The quote service call `yf.Ticker(symbol).info` (lines 44-45) is a network client. It is the `lookup` parameter, and "it raised" is the `Raised` answer.
- The info table holds only numeric fields. A field that holds `None` is the same as an absent key, which is what `dict.get` also returns. Non-numeric values are not modelled. In the source, a falsy non-numeric `currentPrice` (`''`, `False`) falls through at line 48 like a zero does. A truthy non-numeric value that line 48 picks (a string, say) makes `round` raise at line 64, and the answer is 500.
- Exceptions are modelled only as coming from the quote service. The other statements of `main` cannot raise on the modelled inputs.
- `datetime.now()` (lines 58-59) is wall-clock I/O. The date text and timestamp are parameters, and the `%Y-%m-%d` formatting is not modelled.
- Rounding.RoundCents: the price is the exact value of the fetched float, as a real. Converting the rounded decimal back to the nearest binary float is not modelled, and neither are NaN or infinite prices.
- StockQuote.TruthyPrice: Python truthiness of a float is taken as "not zero", because reals have no NaN.
- `str.isalpha` and `str.upper` are modelled over ASCII only. Non-ASCII letters count as non-letters and are left unchanged by upper-casing, and the length changes Unicode upper-casing can make (such as `ß` to `SS`) are not modelled.
- `json.dumps` is not modelled: a body is a map from keys to JSON values, not serialised text. The `HttpRequest`/`HttpResponse` wrappers are reduced to the query parameter, the URL and a status/body/MIME-type record.
- Logging (lines 14, 69, 78) has no effect on the response.
- The rest of the repository is Terraform declarations and shell provisioning scripts. It is not part of this model.
