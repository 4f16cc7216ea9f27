# EruditeFX analysis generator in Dafny

This project models the part of EruditeFX that turns a request into an `Analise`. A request is an
instrument such as "EUR/USD", a timeframe and a setup type ("Scalp", "Intradia" or "Swing"). The
model covers these steps:

- parsing the pair into its two legs;
- deriving a 64-bit seed from the request with SHA-256;
- drawing prices and ratios from Python's `random` reseeded per draw;
- building the five-item checklist, the three trade setups and the liquidity and order-block zones;
- mapping news events to pair signals;
- assembling the final analysis.

It also models both news providers:

- the fixed demonstration events;
- the per-record normalisation of the TradingEconomics calendar feed.

The model's representation choices:

- **Prices** are integers in units of 0.00001. Risk/reward ratios are in hundredths. Success
  probabilities are whole percentages.
- **SHA-256** is the function parameter `Sha256`, mapping a string to a 32-byte digest.
- **Random draws** come from the function parameter `Stream`. `rng(seed, n)` is the numerator k of
  the n-th `random()` value k / 2^53 after `random.seed(seed)`.
- **Modules.** Python's string operations (`split`, `join`, `upper`, `strip`, `replace`, slicing)
  are in `PyStrings`. `hexdigest` and `int(h, 16)` are in `PyHashing`. The schema enums and records
  are in `Schemas`. The providers are in `NewsProvider`. The services are in `Analysis`.
- **Loops.** Each loop-based operation of the source is a method with a loop: `make_checklist`,
  `make_setups`, the news loop of `run_analysis` and the calendar loop of `get_events`. Each method is
  proved equal to a specification function. The properties are proved about those functions.
- **Errors.** They are modelled as `Result` values. A pair that does not split into two legs gives
  `InvalidPairFormat`. A provider that raises gives `ProviderFailed`.

Three behaviours of the source are worth stating outright:

- **Provider exceptions reach the caller**, once the order blocks are built by keyword (see Findings; as written, `make_zonas` raises first). `run_analysis` calls `get_events` without any handler
  (analysis.py:125). So the `AttributeError`/`TypeError` that
  `TradingEconomicsNewsProvider.get_events` can raise on a malformed calendar, or anything a custom
  provider raises, make the whole call fail. `Analysis.Analyse` and `Analysis.RunAnalysis` propagate
  them as `ProviderFailed`.
- **Legs are not checked.** `parse_pair` (analysis.py:11-16) accepts legs of any length and never
  consults `CURRENCY_CODES` (`Analysis.ParsePairUncheckedLegs`).
- **Seeds can collide.** `seed_from` joins the request with '|' (analysis.py:19) without escaping.
  An instrument or timeframe holding '|' can therefore hash the same text as a different request.
  For example, ("EUR/USD|5M", "x", Scalp) and ("EUR/USD", "5M|x", Scalp) always share a seed
  (`Analysis.SeedCollisionExample`). Without a '|' in either part, only a digest collision can
  give two requests the same seed (`Analysis.SeedInputDeterminesRequest`).

## Model

| member | source | states |
|---|---|---|
| Analysis.ParsePair | eruditefx_api/app/services/analysis.py:13-16 | parsing succeeds exactly when the text holds one separator in total ('/' plus '-' counted together); every failure is InvalidPairFormat |
| Analysis.ParsePairLegs | eruditefx_api/app/services/analysis.py:13-16 | with its only separator at index k, the legs are the two sides, upper-cased and stripped |
| Analysis.ParsePairRoundTrip | eruditefx_api/app/services/analysis.py:13-16 | two legs of ASCII letters written around '/' or '-', of any length, parse back to the two legs upper-cased |
| Analysis.EurUsdLegs | eruditefx_api/app/services/analysis.py:13-16 | "EUR/USD" parses to ("EUR", "USD") |
| Analysis.ParsePairUncheckedLegs | eruditefx_api/app/services/analysis.py:11-16 | "EURO-US" parses to ("EURO", "US") although "EURO" is not in CURRENCY_CODES: legs are checked neither for length nor for membership |
| Analysis.ParsePairLowerCase | eruditefx_api/app/services/analysis.py:14-16 | "eur-usd" parses to ("EUR", "USD") |
| Analysis.ParsePairNoSeparator | eruditefx_api/app/services/analysis.py:13-16 | a text of letters without a separator is refused |
| Analysis.ParsePairTwoSeparators | eruditefx_api/app/services/analysis.py:13-16 | three letter legs joined by two separators, of either kind, are refused |
| PyStrings.CountNormalisePair | eruditefx_api/app/services/analysis.py:14 | after replace("-", "/").upper() the number of '/' is the input's count of '/' plus '-' |
| PyStrings.SplitAtOnlySeparator | eruditefx_api/app/services/analysis.py:14-15 | a pair with one separator normalises and splits into exactly its two upper-cased sides |
| PyStrings.Split | eruditefx_api/app/services/analysis.py:15 | `split(c)` gives one more piece than there are separators, none containing c |
| PyStrings.Strip | eruditefx_api/app/services/analysis.py:15 | `strip()` returns a slice of its input, removes only whitespace and leaves no whitespace at either end |
| Analysis.SeedFrom | eruditefx_api/app/services/analysis.py:18-20 | the seed is the first 8 bytes of SHA-256 of the parts joined with "\|", read big-endian, hence below 2^64 |
| PyHashing.HexDigest | eruditefx_api/app/services/analysis.py:19 | `hexdigest()` gives two hexadecimal digits per byte |
| PyHashing.ParseHex | eruditefx_api/app/services/analysis.py:20 | `int(h, 16)` of n hexadecimal digits is below 16^n |
| PyHashing.HexDigestPrefix | eruditefx_api/app/services/analysis.py:19-20 | the first 2n hex digits of a digest are the hex digits of its first n bytes |
| PyHashing.ParseHexDigest | eruditefx_api/app/services/analysis.py:19-20 | reading a hex digest base 16 gives the bytes' big-endian value |
| PyHashing.BigEndianBound | eruditefx_api/app/services/analysis.py:20 | n bytes read big-endian are below 256^n |
| PyStrings.JoinSplit | eruditefx_api/app/services/analysis.py:19 | splitting a text on c and joining with c gives the text back |
| PyStrings.SplitJoin | eruditefx_api/app/services/analysis.py:19 | joining separator-free parts with c and splitting on c gives the parts back |
| PyStrings.JoinInjective | eruditefx_api/app/services/analysis.py:19 | separator-free part lists with equal joins are equal |
| Analysis.SeedInputDeterminesRequest | eruditefx_api/app/services/analysis.py:18-20 | when instrument and timeframe hold no "\|", the hashed text determines instrument, timeframe and setup type, so two requests share a seed only through a digest collision |
| Analysis.SeedSharedAcrossRegrouping | eruditefx_api/app/services/analysis.py:18-20 | moving a '\|' from the end of the instrument to the start of the timeframe leaves the seed unchanged, whatever the digest function |
| Analysis.SeedCollisionExample | eruditefx_api/app/services/analysis.py:18-20 | ("EUR/USD\|5M", "x", Scalp) and ("EUR/USD", "5M\|x", Scalp) get the same seed |
| Analysis.RoundDiv | eruditefx_api/app/services/analysis.py:24 | round(n / d) to the nearest integer, halves up: the remainder is below d/2 on one side and at most d/2 on the other |
| Analysis.RoundedDrawBound | eruditefx_api/app/services/analysis.py:24 | a rounded draw scaled to width w never exceeds w |
| Analysis.RndBetween | eruditefx_api/app/services/analysis.py:22-24 | the rounded uniform draw lies in [a, b] |
| Analysis.WeightedEstado | eruditefx_api/app/services/analysis.py:38 | `choices` with weights 0.6, 0.3, 0.1: VERDE for draws below 0.6, AMARELO for draws in [0.6, 0.9), VERMELHO from 0.9 |
| Analysis.WeightedEstadoMonotone | eruditefx_api/app/services/analysis.py:38 | with cumulative weights 0.6 and 0.9, a larger draw never gives a better state |
| Analysis.Checklist | eruditefx_api/app/services/analysis.py:26-40 | five items; item i carries criterion i of the fixed list and the state chosen by draw i of the one stream seeded once |
| Analysis.MakeChecklist | eruditefx_api/app/services/analysis.py:26-40 | the loop, one draw per criterion after one reseed, builds exactly Checklist(seed) |
| Analysis.ZoneBase | eruditefx_api/app/services/analysis.py:80 | the zone base price lies in [1.05000, 1.12000] |
| Analysis.MakeZonas | eruditefx_api/app/services/analysis.py:79-89 | lists ordered [Low, High] and [OB de Compra, OB de Venda]; Low < compra.lower < compra.upper < base < venda.lower < venda.upper < High; both blocks 0.0008 wide; High − Low = 0.0092; all within [1.04550, 1.12470] |
| Analysis.MakeZonasAsWritten | eruditefx_api/app/services/analysis.py:85-88 | as written, both order blocks are built with positional arguments, so make_zonas raises for every seed |
| Analysis.NewZonaInstitucional | eruditefx_api/app/services/analysis.py:86-87 | a pydantic model built with positional arguments raises; built by keyword it holds the given fields |
| Analysis.MakeZonasByKeyword | eruditefx_api/app/services/analysis.py:86-87 | passed by keyword, the same type and bounds give exactly MakeZonas' order blocks |
| Analysis.EntryPrice | eruditefx_api/app/services/analysis.py:45 | the shared entry price, drawn once from seed + 999, lies in [0.80000, 1.25000] |
| Analysis.DirectionAt | eruditefx_api/app/services/analysis.py:44-76 | every pass is BUY for a type other than Scalp; for Scalp pass i has the first direction exactly when i is even |
| Analysis.Setups | eruditefx_api/app/services/analysis.py:42-77 | three setups, setup i with the direction of pass i and the shared entry price |
| Analysis.SubSeedsDistinct | eruditefx_api/app/services/analysis.py:43-68 | the twelve sub-seeds seed+999+111·i+k (i < 3, k < 4) are pairwise distinct and differ from the zone seed |
| Analysis.TakeProfitOffset | eruditefx_api/app/services/analysis.py:54 | for rr in [1.40, 2.80] and a stop distance in [0.0008, 0.0022], the rounded target offset is positive and within half a unit of rr × distance |
| Analysis.BuildSetup | eruditefx_api/app/services/analysis.py:48-74 | every setup is well formed: rr in [1.40, 2.80], probability in [58, 78], BUY ⇒ sl < entry < tp, SELL ⇒ tp < entry < sl, stop distance in [0.0008, 0.0022], target offset = rr × stop distance up to rounding, five criteria in order; it has the requested direction, the shared entry price and the name "Setup i+1 – direction"; rr, probability and stop distance are the draws from sub-seeds s, s+1 and s+2, and the checklist is `make_checklist(s + 3)`, where s = seed + 999 + 111·i |
| Analysis.RatioWithinHundredth | eruditefx_api/app/services/analysis.py:49-58 | in a well-formed setup the realised target/stop ratio matches rr within 0.01 |
| Analysis.SetupsShape | eruditefx_api/app/services/analysis.py:42-77 | three well-formed setups sharing one entry price, named in order, setup i carrying the checklist of its own sub-seed s + 3; all BUY for a type other than Scalp; d, not d, d for Scalp |
| Analysis.MakeSetup | eruditefx_api/app/services/analysis.py:48-74 | one pass of the loop builds exactly BuildSetup for its index and direction |
| Analysis.MakeSetups | eruditefx_api/app/services/analysis.py:42-77 | the loop, flipping the direction after each Scalp pass, builds exactly the batch Setups |
| Analysis.SignalFor | eruditefx_api/app/services/analysis.py:93-103 | BUY iff (↑ and currency = base) or (↓ and currency = quote ≠ base); SELL iff (↑ and currency = quote ≠ base) or (↓ and currency = base); volatility iff "Volátil" or the currency is neither leg |
| Analysis.SignalSwapLegs | eruditefx_api/app/services/analysis.py:91-103 | for distinct legs, swapping base and quote swaps BUY and SELL |
| Analysis.SignalOppositeArrows | eruditefx_api/app/services/analysis.py:91-103 | a falling forecast gives the opposite signal of a rising one |
| Analysis.SignalFromEvent | eruditefx_api/app/services/analysis.py:91-103 | succeeds exactly when the pair parses, then gives the table's signal for its legs |
| Analysis.SignalExamples | eruditefx_api/app/services/analysis.py:91-103 | for EUR/USD, a rising USD figure is SELL, a rising EUR figure BUY, "Volátil" the volatility signal, and "usd" is not upper-cased, so it matches no leg |
| Analysis.SignalRefusedPair | eruditefx_api/app/services/analysis.py:92 | every signal fails on a pair of letters without a separator |
| Analysis.StaticDemoSignals | eruditefx_api/app/services/analysis.py:91-103 | the three demonstration events read against EUR/USD give SELL, BUY and the volatility signal |
| Analysis.BuildContext | eruditefx_api/app/services/analysis.py:105-111 | succeeds exactly when the pair parses; the text starts with the pair as given |
| Analysis.NewsList | eruditefx_api/app/services/analysis.py:127-139 | succeeds iff there are no events or the pair parses; no events give the empty list even for a pair that does not parse; otherwise, on success, one item per event, in order, with its fields and the signal for the pair's legs |
| Analysis.MapNews | eruditefx_api/app/services/analysis.py:127-139 | the loop, stopping at the first signal that cannot be computed, returns exactly NewsList |
| Analysis.QuadroResumo | eruditefx_api/app/services/analysis.py:141-152 | one summary row per setup, in order, repeating its name, direction, entry, SL, TP, RR and probability |
| Analysis.ProviderEvents | eruditefx_api/app/services/analysis.py:123-125 | without a provider, the three demonstration events; otherwise whatever the given provider returned or raised |
| Analysis.AssembledWellFormed | eruditefx_api/app/services/analysis.py:119-152 | zones from make_zonas, setups from make_setups and their summary always form a well-formed analysis, with summary row i repeating setup i's name, direction, entry, SL, TP, RR and probability |
| Analysis.AnalyseAsWritten | eruditefx_api/app/services/analysis.py:113-125 | as written, every request fails with the zone construction error of make_zonas (analysis.py:120) |
| Analysis.AsWrittenNeverReachesProvider | eruditefx_api/app/services/analysis.py:119-125 | as written, the outcome is the same for every news source and is never a provider error: get_events is never reached |
| Analysis.Analyse | eruditefx_api/app/services/analysis.py:113-166 | with the zones built by keyword, an analysis is produced exactly when the provider returns and the pair parses |
| Analysis.AnalyseErrors | eruditefx_api/app/services/analysis.py:119-129 | with the zones built by keyword, a provider exception wins over an unparsable pair; otherwise an unparsable pair gives InvalidPairFormat |
| Analysis.AnalyseContents | eruditefx_api/app/services/analysis.py:119-165 | a produced analysis is well formed, echoes instrument, timeframe, type and clock, starts its context with the instrument, and holds the zones and setups of the request's seed |
| Analysis.AnalyseNews | eruditefx_api/app/services/analysis.py:123-139 | a produced analysis has one news item per provider event, in order, with the signal for the pair's legs |
| Analysis.RunAnalysis | eruditefx_api/app/services/analysis.py:113-166 | the imperative assembly returns exactly Analyse |
| NewsProvider.StaticDemoEvents | eruditefx_api/app/services/news_provider.py:21-45 | three events of today: USD "Alto" ↑, EUR "Médio" ↑, USD "Médio" "Volátil", each time prefixed by today's date |
| NewsProvider.BaseGetEvents | eruditefx_api/app/services/news_provider.py:12-14 | the base class's get_events raises for every instrument |
| NewsProvider.ImpactOf | eruditefx_api/app/services/news_provider.py:92-94 | "Low" → Baixo, "High" → Alto, a list or dict raises (unhashable), anything else → Médio |
| NewsProvider.DirectionOf | eruditefx_api/app/services/news_provider.py:95-100 | ↑ iff both values are numbers (booleans included) and forecast > previous; ↓ iff both are numbers and forecast ≤ previous; "Volátil" otherwise |
| NewsProvider.DirectionOfExamples | eruditefx_api/app/services/news_provider.py:99-100 | booleans count as numbers, a tie gives ↓, a numeric string or a missing value gives "Volátil" |
| NewsProvider.NormaliseRecord | eruditefx_api/app/services/news_provider.py:81-107 | a non-dict entry raises; a dict raises only for an unhashable importance; otherwise impact and direction follow the rules above, the currency is str(Currency or Country)[:3] or "", and the event is str(Event or Category) or "Evento" |
| NewsProvider.RequestCurrencies | eruditefx_api/app/services/news_provider.py:63-68 | two currencies are requested, EUR and USD whenever the instrument does not hold exactly one separator |
| Analysis.RequestCurrenciesAgree | eruditefx_api/app/services/news_provider.py:63-67 | the requested currencies are the legs parse_pair gives, or EUR and USD when it would fail |
| PyStrings.Take | eruditefx_api/app/services/news_provider.py:104 | `s[:n]` is the prefix of length min(n, \|s\|) |
| NewsProvider.TradingEconomicsGetEvents | eruditefx_api/app/services/news_provider.py:59-108 | no events without httpx or an API key, or when the request fails or the payload is not a list; otherwise every entry normalised in order, or the first entry's exception |

## Findings

| source | as written | input that shows it | evidently intended | confidence | as-written member | corrected member |
|---|---|---|---|---|---|---|
| eruditefx_api/app/services/analysis.py:86-87 | `ZonaInstitucional("OB de Compra", lo, hi)` passes the fields positionally; pydantic's `BaseModel.__init__` accepts keyword arguments only and raises `TypeError`, so `make_zonas`, and with it `run_analysis` (analysis.py:120), raise on every request (`Analysis.AnalyseAsWritten`) | any seed, e.g. the seed of ("EUR/USD", "5M", "Scalp") | `ZonaInstitucional(tipo=..., limite_inferior=..., limite_superior=...)`, as `ZonaLiquidacao` is built two lines above | high for pydantic's documented constructor; not executed | Analysis.MakeZonasAsWritten | Analysis.MakeZonas |

## Left out

- Analysis.Analyse / Analysis.RunAnalysis: they build the zones with the keyword-fixed `MakeZonas`, so they describe `run_analysis` as it would behave with that fix. The code as written fails at analysis.py:120 for every request; `Analysis.AnalyseAsWritten` models that.

- SHA-256 itself is a parameter (`Sha256`). So is the UTF-8 encoding of the joined text. Without the digest function, the claim that different requests usually get different seeds cannot be proved. The model proves only that the hashed text determines the request (`Analysis.SeedInputDeterminesRequest`).
- The Mersenne Twister behind `random.random()` is a parameter (`Stream`). Prices follow from the draws as the source computes them, up to the rounding differences listed below, but the draws themselves are unconstrained.
- `Stream(seed, n)` assumes that nothing reseeds the process-wide generator between `random.seed` and the draws that follow it (analysis.py:23-24, 27, 38). Under concurrent requests in one process, the source's draws depend on how the requests interleave; the model does not capture that.
- The first Scalp direction, `random.choice(["BUY", "SELL"])` at analysis.py:44, is a parameter (`scalpFirst`). It depends on the global generator state that `make_zonas` leaves behind.
- Analysis.RndBetween: floating-point arithmetic is not modelled. uniform(a, b) and round(·, nd) are computed exactly on the 53-bit draw, with ties rounded up. The source uses binary floats with round-half-even. The model can therefore differ from the source by one unit in the last decimal.
- Analysis.RoundDiv: does not model Python's round-half-even on ties or binary float representation error; ties are rounded up.
- Analysis.TakeProfitOffset: `round(entrada + rr * (entrada - sl), 5)` is modelled as entry ± round(rr × distance), which is exact on decimals. The float sum can differ by one unit in the fifth decimal.
- Analysis.WeightedEstadoMonotone: `random.choices` compares the draw against float cumulative weights 0.6 and 0.9 (float sums, not exactly 6/10 and 9/10). The model uses the exact fractions.
- Setup 1 draws its ratio from rng(seed + 999, 0), the same draw as the shared entry price. The model keeps this: `SubSeed(seed, 0, 0) == seed + 999`.
- `make_setups` takes the pair as an argument and never uses it. The model drops the argument.
- The date of the demonstration events and the analysis time come from the clock. They are the parameters `today` and `clockNow`.
- The Lisbon conversion of calendar dates (`fromisoformat` and `astimezone`) is a parameter (`toLisbon`, None when it raises).
- `str()` of numbers, lists and dicts is a parameter (`render`).
- The `Json` datatype holds standard JSON only. Python's `json.loads` also accepts NaN and ±Infinity. A NaN forecast would give "↓" at news_provider.py:100, and the model cannot represent it.
- The HTTP request is a parameter (`fetch`, None when it raises or returns an error status), and so is the presence of httpx (`httpxAvailable`).
- The `TRADINGECONOMICS_API_KEY` environment lookup in the provider's constructor is not modelled; the key is given directly.
- PyStrings.Upper: upper-cases ASCII letters only; Python's full Unicode case mapping (e.g. "ß" → "SS") is not modelled, so only ASCII pairs are faithful.
- A custom provider whose events carry impact or direction values outside the schema's vocabularies is not representable. `RawEvent` uses the enums.
- Pydantic validation of `Analise`, `Setup` and the other models is not modelled, apart from the positional-argument refusal under Findings.
- PDF rendering, chart imaging and the SSE front end are not part of this model.
