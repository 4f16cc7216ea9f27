/**
  The deterministic analysis generator: seed derivation, seeded draws, the
  zones, the three setups with their checklists, the news-to-signal rule
  table and the assembly of the result.

  Prices are integers in units of 0.00001, risk/reward ratios integers in
  hundredths. SHA-256 (`sha`) and the seeded `random()` draws (`rng`) are
  parameters, as are the clock (`clockNow`, `today`) and the first direction
  of a "Scalp" batch (`scalpFirst`), which the source takes from whatever
  state the shared random generator was left in.
 */
module Analysis {
  import opened Wrappers
  import opened PyStrings
  import opened PyHashing
  import opened PyRandom
  import opened Schemas
  import opened NewsProvider

  /** Declared next to `parse_pair`, which never consults it. */
  const CurrencyCodes: set<string> := {"EUR", "USD", "GBP", "JPY", "CHF", "AUD", "CAD", "NZD"}

  datatype AnalysisError =
    | InvalidPairFormat                     // the pair does not unpack into two legs
    | ProviderFailed(cause: ProviderError)  // the news provider raised
    | ZoneConstruction(refused: ConstructionError)  // a zone model refused its arguments

  // ---------------------------------------------------------------- pairs

  /**
    `parse_pair`: '-' becomes '/', letters are upper-cased, the text is split
    on '/' and must give exactly two pieces, each stripped of whitespace.
    Neither the length of a leg nor its membership in CurrencyCodes is checked.
   */
  function ParsePair(pair: string): (r: Result<(string, string), AnalysisError>)
    ensures r.Success? <==> Count(pair, '/') + Count(pair, '-') == 1
    ensures r.Failure? ==> r.error == InvalidPairFormat
  {
    CountNormalisePair(pair);
    var parts := Split(NormalisePair(pair), '/');
    if |parts| == 2 then Success((Strip(parts[0]), Strip(parts[1]))) else Failure(InvalidPairFormat)
  }

  /** With its only separator at index k, a pair's legs are the upper-cased, stripped texts on each side. */
  lemma ParsePairLegs(pair: string, k: nat)
    requires k < |pair| && (pair[k] == '/' || pair[k] == '-')
    requires Count(pair, '/') + Count(pair, '-') == 1
    ensures ParsePair(pair) == Success((Strip(Upper(pair[..k])), Strip(Upper(pair[k + 1..]))))
  {
    SplitAtOnlySeparator(pair, k);
  }

  predicate IsLetters(s: string)
  {
    forall i :: 0 <= i < |s| ==> 'a' <= s[i] <= 'z' || 'A' <= s[i] <= 'Z'
  }

  /** A leg of ASCII letters is upper-cased and has nothing to strip. */
  lemma LetterLegStrip(leg: string)
    requires IsLetters(leg)
    ensures Strip(Upper(leg)) == Upper(leg)
  {
    var u := Upper(leg);
    if u != [] {
      assert !IsSpace(u[0]) && !IsSpace(u[|u| - 1]);
    }
  }

  /**
    Writing two legs of ASCII letters around '/' or '-' and parsing the text
    gives the legs back upper-cased, whatever their length.
   */
  lemma ParsePairRoundTrip(base: string, quote: string, sep: char)
    requires sep == '/' || sep == '-'
    requires IsLetters(base) && IsLetters(quote)
    ensures ParsePair(base + [sep] + quote) == Success((Upper(base), Upper(quote)))
  {
    var pair := base + [sep] + quote;
    var k := |base|;
    assert pair[..k] == base && pair[k + 1..] == quote && pair[k] == sep;
    assert '/' !in base && '-' !in base && '/' !in quote && '-' !in quote;
    CountAbsent(base, '/');
    CountAbsent(base, '-');
    CountAbsent(quote, '/');
    CountAbsent(quote, '-');
    CountConcat(base + [sep], quote, '/');
    CountConcat(base, [sep], '/');
    CountConcat(base + [sep], quote, '-');
    CountConcat(base, [sep], '-');
    ParsePairLegs(pair, k);
    LetterLegStrip(base);
    LetterLegStrip(quote);
  }

  lemma EurUsdTexts()
    ensures "EUR/USD" == "EUR" + ['/'] + "USD"
    ensures IsLetters("EUR") && IsLetters("USD")
    ensures Upper("EUR") == "EUR" && Upper("USD") == "USD"
  {
  }

  lemma EurUsdLegs()
    ensures ParsePair("EUR/USD") == Success(("EUR", "USD"))
  {
    EurUsdTexts();
    ParsePairRoundTrip("EUR", "USD", '/');
  }

  lemma LowerCaseTexts()
    ensures "eur-usd" == "eur" + ['-'] + "usd"
    ensures Upper("eur") == "EUR" && Upper("usd") == "USD"
  {
  }

  lemma UncheckedLegTexts()
    ensures "EURO-US" == "EURO" + ['-'] + "US"
    ensures "EURO" !in CurrencyCodes
    ensures IsLetters("EURO") && IsLetters("US")
    ensures Upper("EURO") == "EURO" && Upper("US") == "US"
  {
  }

  /** Legs are not checked against CurrencyCodes, nor for their length. */
  lemma ParsePairUncheckedLegs()
    ensures ParsePair("EURO-US") == Success(("EURO", "US")) && "EURO" !in CurrencyCodes
  {
    UncheckedLegTexts();
    ParsePairRoundTrip("EURO", "US", '-');
  }

  /** Lower-case letters are upper-cased. */
  lemma ParsePairLowerCase()
    ensures ParsePair("eur-usd") == Success(("EUR", "USD"))
  {
    LowerCaseTexts();
    ParsePairRoundTrip("eur", "usd", '-');
  }

  /** A pair without a separator is refused. */
  lemma ParsePairNoSeparator(pair: string)
    requires IsLetters(pair)
    ensures ParsePair(pair) == Failure(InvalidPairFormat)
  {
    assert '/' !in pair && '-' !in pair;
    CountAbsent(pair, '/');
    CountAbsent(pair, '-');
  }

  /** A pair with two separators, of either kind, is refused. */
  lemma ParsePairTwoSeparators(a: string, b: string, c: string, s1: char, s2: char)
    requires IsLetters(a) && IsLetters(b) && IsLetters(c)
    requires (s1 == '/' || s1 == '-') && (s2 == '/' || s2 == '-')
    ensures ParsePair(a + [s1] + b + [s2] + c) == Failure(InvalidPairFormat)
  {
    var pair := a + [s1] + b + [s2] + c;
    forall x | x in [a, b, c]
      ensures Count(x, '/') == 0 && Count(x, '-') == 0
    {
      assert '/' !in x && '-' !in x;
      CountAbsent(x, '/');
      CountAbsent(x, '-');
    }
    SeparatorCount(s1);
    SeparatorCount(s2);
    forall sep | sep == '/' || sep == '-'
      ensures Count(pair, sep) == Count(a, sep) + Count([s1], sep) + Count(b, sep) + Count([s2], sep) + Count(c, sep)
    {
      CountConcat(a + [s1] + b + [s2], c, sep);
      CountConcat(a + [s1] + b, [s2], sep);
      CountConcat(a + [s1], b, sep);
      CountConcat(a, [s1], sep);
    }
  }

  // ----------------------------------------------------------------- seed

  /**
    `seed_from`: the parts joined with '|' are hashed with SHA-256 and the
    first 16 hexadecimal digits of the digest are read as an integer, which
    is the first 8 digest bytes read big-endian.
   */
  function SeedFrom(sha: Sha256, parts: seq<string>): (seed: nat)
    ensures seed == BigEndian(sha(Join(parts, '|'))[..8])
    ensures seed < 0x1_0000_0000_0000_0000
  {
    var digest := sha(Join(parts, '|'));
    var h := HexDigest(digest);
    HexDigestPrefix(digest, 8);
    ParseHexDigest(digest[..8]);
    BigEndianBound(digest[..8]);
    assert Pow(256, 8) == 0x1_0000_0000_0000_0000;
    ParseHex(h[..16])
  }

  /**
    When no part holds '|', the hashed text determines the three inputs:
    two different requests can share a seed only through a digest collision.
   */
  lemma SeedInputDeterminesRequest(
    i1: string, t1: string, s1: SetupType, i2: string, t2: string, s2: SetupType)
    requires '|' !in i1 && '|' !in t1 && '|' !in i2 && '|' !in t2
    requires Join([i1, t1, s1.Text()], '|') == Join([i2, t2, s2.Text()], '|')
    ensures i1 == i2 && t1 == t2 && s1 == s2
  {
    var p, q := [i1, t1, s1.Text()], [i2, t2, s2.Text()];
    assert '|' !in s1.Text() && '|' !in s2.Text();
    JoinInjective(p, q, '|');
    assert p[2] == q[2];
  }

  /** Moving a '|' from the end of one part to the start of the next leaves the joined text unchanged. */
  lemma JoinRegroup(a: string, b: string, c: string, d: string)
    ensures Join([a + ['|'] + b, c, d], '|') == Join([a, b + ['|'] + c, d], '|')
  {
    assert [a + ['|'] + b, c, d][1..] == [c, d] && [c, d][1..] == [d];
    assert [a, b + ['|'] + c, d][1..] == [b + ['|'] + c, d] && [b + ['|'] + c, d][1..] == [d];
    assert (a + ['|'] + b) + ['|'] + (c + ['|'] + d) == a + ['|'] + ((b + ['|'] + c) + ['|'] + d);
  }

  /**
    A '|' inside the instrument or the timeframe lets two different requests
    hash the same text, so they share their seed whatever the digest function.
   */
  lemma SeedSharedAcrossRegrouping(sha: Sha256, a: string, b: string, c: string, t: SetupType)
    ensures SeedFrom(sha, [a + ['|'] + b, c, t.Text()]) == SeedFrom(sha, [a, b + ['|'] + c, t.Text()])
  {
    JoinRegroup(a, b, c, t.Text());
  }

  lemma CollisionTexts()
    ensures "EUR/USD|5M" == "EUR/USD" + ['|'] + "5M" && "5M|x" == "5M" + ['|'] + "x"
  {
  }

  /** ("EUR/USD|5M", "x", Scalp) and ("EUR/USD", "5M|x", Scalp) always get the same seed. */
  lemma SeedCollisionExample(sha: Sha256)
    ensures SeedFrom(sha, ["EUR/USD|5M", "x", Scalp.Text()]) == SeedFrom(sha, ["EUR/USD", "5M|x", Scalp.Text()])
  {
    CollisionTexts();
    SeedSharedAcrossRegrouping(sha, "EUR/USD", "5M", "x", Scalp);
  }

  // ---------------------------------------------------------------- draws

  /** n / d rounded to the nearest integer, halves up. */
  function RoundDiv(n: nat, d: nat): (q: nat)
    requires d > 0
    ensures 2 * (n - d * q) < d && 2 * (d * q - n) <= d
  {
    var m, dd := 2 * n + d, 2 * d;
    var q, rem := m / dd, m % dd;
    assert m == dd * q + rem && 0 <= rem < dd;
    assert 2 * (d * q) == dd * q;
    q
  }

  lemma RoundedDrawBound(w: nat, k: Draw53)
    ensures RoundDiv(w * k, TwoTo53) <= w
  {
    var d := TwoTo53;
    var q := RoundDiv(w * k, d);
    assert w * k <= w * (d - 1) by {
      assert w * (d - 1) - w * k == w * (d - 1 - k);
    }
    assert 2 * (d * q) <= 2 * w * (d - 1) + d;
  }

  /**
    `rnd_between(seed, a, b, nd)`, with `lo` and `hi` in units of 10^-nd:
    reseed, draw one `uniform(a, b)` and round it to nd decimals. The result
    stays within the range.
   */
  function RndBetween(rng: Stream, seed: int, lo: int, hi: int): (v: int)
    requires lo <= hi
    ensures lo <= v <= hi
  {
    var k := rng(seed, 0);
    assert (hi - lo) * k >= 0;
    RoundedDrawBound(hi - lo, k);
    lo + RoundDiv((hi - lo) * k, TwoTo53)
  }

  // ------------------------------------------------------------ checklist

  const Criterios: seq<string> := [
    "Confluência com zona institucional",
    "Liquidez tomada antes da entrada",
    "Estrutura de mercado alinhada",
    "Direção do timeframe superior",
    "RR ≥ 1.5"
  ]

  /**
    One `random.choices(estados, weights=[0.6, 0.3, 0.1])` for the draw
    k / 2^53: the first cumulative weight (0.6, 0.9) above the draw.
   */
  function WeightedEstado(k: Draw53): (e: Estado)
    ensures e == VERDE <==> 10 * k < 6 * TwoTo53
    ensures e == AMARELO <==> 6 * TwoTo53 <= 10 * k < 9 * TwoTo53
    ensures e == VERMELHO <==> 9 * TwoTo53 <= 10 * k
  {
    if 10 * k < 6 * TwoTo53 then VERDE else if 10 * k < 9 * TwoTo53 then AMARELO else VERMELHO
  }

  function Severity(e: Estado): nat
  {
    match e
    case VERDE => 0
    case AMARELO => 1
    case VERMELHO => 2
  }

  /** A larger draw never gives a better outcome: the cumulative weights increase. */
  lemma WeightedEstadoMonotone(k1: Draw53, k2: Draw53)
    requires k1 <= k2
    ensures Severity(WeightedEstado(k1)) <= Severity(WeightedEstado(k2))
  {
  }

  /**
    The checklist for one seed: the five criteria in their fixed order, the
    i-th outcome taken from the i-th draw of the one stream seeded once.
   */
  function Checklist(rng: Stream, seed: int): (items: seq<ChecklistItem>)
    ensures |items| == |Criterios| == 5
    ensures forall i :: 0 <= i < 5 ==>
      items[i].criterio == Criterios[i] && items[i].estado == WeightedEstado(rng(seed, i))
  {
    seq(5, i requires 0 <= i < 5 => ChecklistItem(Criterios[i], WeightedEstado(rng(seed, i))))
  }

  /** `make_checklist`: reseed once, then one weighted choice per criterion. */
  method MakeChecklist(rng: Stream, seed: int) returns (items: seq<ChecklistItem>)
    ensures items == Checklist(rng, seed)
  {
    var position: nat := 0;  // draws taken since random.seed(seed)
    items := [];
    for i := 0 to |Criterios|
      invariant position == i
      invariant items == Checklist(rng, seed)[..i]
    {
      var e := WeightedEstado(rng(seed, position));
      position := position + 1;
      items := items + [ChecklistItem(Criterios[i], e)];
    }
  }

  // ---------------------------------------------------------------- zones

  /** The base price of the zones: one draw in [1.05, 1.12]. */
  function ZoneBase(rng: Stream, seed: int): (b: int)
    ensures 105000 <= b <= 112000
  {
    RndBetween(rng, seed, 105000, 112000)
  }

  /**
    `make_zonas`: [Low, High] liquidity levels and [buy, sell] order blocks,
    strictly ordered Low < buy block < base < sell block < High, every price
    at a fixed offset from the one drawn base.
   */
  function MakeZonas(rng: Stream, seed: int): (z: (seq<ZonaLiquidacao>, seq<ZonaInstitucional>))
    ensures |z.0| == 2 && z.0[0].tipo == Low && z.0[1].tipo == High
    ensures |z.1| == 2 && z.1[0].tipo == OBDeCompra && z.1[1].tipo == OBDeVenda
    ensures z.0[0].preco < z.1[0].limiteInferior < z.1[0].limiteSuperior < ZoneBase(rng, seed)
    ensures ZoneBase(rng, seed) < z.1[1].limiteInferior < z.1[1].limiteSuperior < z.0[1].preco
    ensures z.1[0].limiteSuperior - z.1[0].limiteInferior == z.1[1].limiteSuperior - z.1[1].limiteInferior == 80
    ensures z.0[1].preco - z.0[0].preco == 920
    ensures 104550 <= z.0[0].preco && z.0[1].preco <= 112470
  {
    var base := ZoneBase(rng, seed);
    ( [ZonaLiquidacao(Low, base - 450), ZonaLiquidacao(High, base + 470)],
      [ZonaInstitucional(OBDeCompra, base - 180, base - 100),
       ZonaInstitucional(OBDeVenda, base + 100, base + 180)] )
  }

  /** A pydantic model takes its fields by keyword only; positional arguments raise `TypeError`. */
  datatype ConstructionError = PositionalArguments(count: nat)

  /** `ZonaInstitucional(...)` called with `positional` positional arguments, the remaining fields by keyword. */
  function NewZonaInstitucional(positional: nat, tipo: TipoInstitucional, lo: int, hi: int)
    : (r: Result<ZonaInstitucional, ConstructionError>)
    ensures r.Failure? <==> positional > 0
    ensures r.Success? ==> r.value.tipo == tipo && r.value.limiteInferior == lo && r.value.limiteSuperior == hi
  {
    if positional > 0 then Failure(PositionalArguments(positional)) else Success(ZonaInstitucional(tipo, lo, hi))
  }

  /**
    `make_zonas` as written: both order blocks are built with their three
    fields passed positionally, so the call raises for every seed.
   */
  function MakeZonasAsWritten(rng: Stream, seed: int)
    : (r: Result<(seq<ZonaLiquidacao>, seq<ZonaInstitucional>), ConstructionError>)
    ensures r == Failure(PositionalArguments(3))
  {
    var base := ZoneBase(rng, seed);
    var liquidez := [ZonaLiquidacao(Low, base - 450), ZonaLiquidacao(High, base + 470)];
    var compra := NewZonaInstitucional(3, OBDeCompra, base - 180, base - 100);
    var venda := NewZonaInstitucional(3, OBDeVenda, base + 100, base + 180);
    match (compra, venda)
    case (Failure(e), _) => Failure(e)
    case (_, Failure(e)) => Failure(e)
    case (Success(c), Success(v)) => Success((liquidez, [c, v]))
  }

  /** Passed by keyword, as every other model in the module is built, the same fields give the zones of MakeZonas. */
  lemma MakeZonasByKeyword(rng: Stream, seed: int)
    ensures var base := ZoneBase(rng, seed);
      && NewZonaInstitucional(0, OBDeCompra, base - 180, base - 100) == Success(MakeZonas(rng, seed).1[0])
      && NewZonaInstitucional(0, OBDeVenda, base + 100, base + 180) == Success(MakeZonas(rng, seed).1[1])
  {
  }

  // --------------------------------------------------------------- setups

  /** Sub-seed k of setup i: `seed + 999 + 111·i + k`. */
  function SubSeed(seed: int, i: nat, k: nat): int
  {
    seed + 999 + 111 * i + k
  }

  /** The twelve setup sub-seeds are pairwise distinct and differ from the zone seed. */
  lemma SubSeedsDistinct(seed: int, i: nat, k: nat, j: nat, l: nat)
    requires i < 3 && j < 3 && k < 4 && l < 4 && (i, k) != (j, l)
    ensures SubSeed(seed, i, k) != SubSeed(seed, j, l)
    ensures SubSeed(seed, i, k) != seed
  {
  }

  /** The entry price shared by the three setups: one draw in [0.8, 1.25] from `seed + 999`. */
  function EntryPrice(rng: Stream, seed: int): (p: int)
    ensures 80000 <= p <= 125000
  {
    RndBetween(rng, seed + 999, 80000, 125000)
  }

  function Abs(x: int): nat
  {
    if x < 0 then -x else x
  }

  /**
    What every generated setup satisfies: ratio in [1.40, 2.80], probability
    in [58, 78], stop 0.0008 to 0.0022 from the entry on the losing side,
    target on the winning side at ratio times the stop distance up to
    half a price unit, and the five criteria in order.
   */
  predicate WellFormedSetup(s: Setup)
  {
    && 140 <= s.rr <= 280
    && 58 <= s.probSucesso <= 78
    && (s.direcao == BUY ==> s.stopLoss < s.entrada < s.takeProfit)
    && (s.direcao == SELL ==> s.takeProfit < s.entrada < s.stopLoss)
    && 80 <= Abs(s.entrada - s.stopLoss) <= 220
    && 2 * Abs(100 * Abs(s.takeProfit - s.entrada) - s.rr * Abs(s.entrada - s.stopLoss)) <= 100
    && |s.checklist| == 5
    && (forall i :: 0 <= i < 5 ==> s.checklist[i].criterio == Criterios[i])
  }

  /** The stated ratio matches the realised target/stop ratio to within 0.01. */
  lemma RatioWithinHundredth(s: Setup)
    requires WellFormedSetup(s)
    ensures Abs(100 * Abs(s.takeProfit - s.entrada) - s.rr * Abs(s.entrada - s.stopLoss))
            <= Abs(s.entrada - s.stopLoss)
  {
  }

  /** Direction of setup i: BUY unless "Scalp", where it alternates from `first`. */
  function DirectionAt(t: SetupType, first: Direcao, i: nat): (d: Direcao)
    ensures t != Scalp ==> d == BUY
    ensures t == Scalp ==> (d == first <==> i % 2 == 0)
  {
    if t != Scalp then BUY else if i % 2 == 0 then first else first.Flip()
  }

  /** "Setup {i+1} – {direction}". */
  function SetupName(i: nat, d: Direcao): string
    requires i < 9
  {
    "Setup " + [('1' as int + i) as char] + " – " + d.Text()
  }

  const Explicacao: string :=
    "Entrada baseada em reteste à zona institucional e tomada prévia de liquidez. "
    + "Confirmação por estrutura e confluência multi‑timeframe."

  lemma TakeProfitOffset(rr: int, delta: int)
    requires 140 <= rr <= 280 && 80 <= delta <= 220
    ensures rr * delta >= 11200
    ensures var q := RoundDiv(rr * delta, 100); q > 0 && 2 * Abs(100 * q - rr * delta) <= 100
  {
    assert rr * delta - 11200 == (rr - 140) * delta + 140 * (delta - 80);
    assert (rr - 140) * delta >= 0;
  }

  /** Setup i of a batch, built with direction d. */
  function BuildSetup(rng: Stream, seed: int, i: nat, d: Direcao): (s: Setup)
    requires i < 3
    ensures WellFormedSetup(s)
    ensures s.direcao == d && s.entrada == EntryPrice(rng, seed) && s.nome == SetupName(i, d)
    ensures s.rr == RndBetween(rng, SubSeed(seed, i, 0), 140, 280)
    ensures s.probSucesso == RndBetween(rng, SubSeed(seed, i, 1), 58, 78)
    ensures Abs(s.entrada - s.stopLoss) == RndBetween(rng, SubSeed(seed, i, 2), 80, 220)
    ensures s.checklist == Checklist(rng, SubSeed(seed, i, 3))
  {
    var sub := SubSeed(seed, i, 0);
    var entrada := EntryPrice(rng, seed);
    var rr := RndBetween(rng, sub, 140, 280);
    var prob := RndBetween(rng, sub + 1, 58, 78);
    var delta := RndBetween(rng, sub + 2, 80, 220);
    TakeProfitOffset(rr, delta);
    var offset := RoundDiv(rr * delta, 100);
    var sl := if d == BUY then entrada - delta else entrada + delta;
    var tp := if d == BUY then entrada + offset else entrada - offset;
    Setup(SetupName(i, d), d, entrada, sl, tp, rr, prob, Checklist(rng, SubSeed(seed, i, 3)), Explicacao)
  }

  /** The batch `make_setups` returns: setup i built with the direction of pass i. */
  function Setups(rng: Stream, t: SetupType, seed: int, scalpFirst: Direcao): (r: seq<Setup>)
    ensures |r| == 3
    ensures forall i :: 0 <= i < 3 ==> r[i].direcao == DirectionAt(t, scalpFirst, i) && r[i].entrada == EntryPrice(rng, seed)
  {
    seq(3, i requires 0 <= i < 3 => BuildSetup(rng, seed, i, DirectionAt(t, scalpFirst, i)))
  }

  /**
    A batch is three well-formed setups sharing one entry price, named in
    order; all BUY unless the type is "Scalp", where the directions are d,
    not d, d.
   */
  lemma SetupsShape(rng: Stream, t: SetupType, seed: int, scalpFirst: Direcao)
    ensures var r := Setups(rng, t, seed, scalpFirst);
      && |r| == 3
      && (forall i :: 0 <= i < 3 ==>
            WellFormedSetup(r[i]) && r[i].entrada == EntryPrice(rng, seed) && r[i].nome == SetupName(i, r[i].direcao))
      && (forall i :: 0 <= i < 3 ==> r[i].checklist == Checklist(rng, SubSeed(seed, i, 3)))
      && (t != Scalp ==> r[0].direcao == BUY && r[1].direcao == BUY && r[2].direcao == BUY)
      && (t == Scalp ==> r[0].direcao == scalpFirst && r[1].direcao == scalpFirst.Flip() && r[2].direcao == scalpFirst)
  {
  }

  /** One pass of `make_setups`' loop: setup i with direction d around the shared entry price. */
  method MakeSetup(rng: Stream, seed: int, i: nat, d: Direcao, entrada: int) returns (setup: Setup)
    requires i < 3 && entrada == EntryPrice(rng, seed)
    ensures setup == BuildSetup(rng, seed, i, d)
  {
    var s := seed + 999 + i * 111;
    var rr := RndBetween(rng, s, 140, 280);
    var prob := RndBetween(rng, s + 1, 58, 78);
    var sl, tp;
    ghost var delta := RndBetween(rng, s + 2, 80, 220);
    TakeProfitOffset(rr, delta);
    if d == BUY {
      sl := entrada - RndBetween(rng, s + 2, 80, 220);
      assert entrada - sl == delta;
      tp := entrada + RoundDiv(rr * (entrada - sl), 100);
    } else {
      sl := entrada + RndBetween(rng, s + 2, 80, 220);
      assert sl - entrada == delta;
      tp := entrada - RoundDiv(rr * (sl - entrada), 100);
    }
    var checklist := MakeChecklist(rng, s + 3);
    assert s == SubSeed(seed, i, 0) && s + 3 == SubSeed(seed, i, 3);
    setup := Setup(SetupName(i, d), d, entrada, sl, tp, rr, prob, checklist, Explicacao);
    ghost var b := BuildSetup(rng, seed, i, d);
    assert b.rr == rr && b.probSucesso == prob && b.stopLoss == sl && b.takeProfit == tp;
    assert b.checklist == checklist;
  }

  /** `make_setups`: the entry price is drawn once, then one setup per pass, flipping the direction for "Scalp". */
  method MakeSetups(rng: Stream, t: SetupType, seed: int, scalpFirst: Direcao) returns (setups: seq<Setup>)
    ensures setups == Setups(rng, t, seed, scalpFirst)
  {
    var direction := if t == Scalp then scalpFirst else BUY;
    var basePrice := RndBetween(rng, seed + 999, 80000, 125000);
    setups := [];
    for i := 0 to 3
      invariant direction == DirectionAt(t, scalpFirst, i)
      invariant |setups| == i
      invariant forall j :: 0 <= j < i ==> setups[j] == BuildSetup(rng, seed, j, DirectionAt(t, scalpFirst, j))
    {
      var setup := MakeSetup(rng, seed, i, direction, basePrice);
      setups := setups + [setup];
      if t == Scalp {
        direction := direction.Flip();
      }
    }
  }

  // --------------------------------------------------------------- news

  /** The table behind `signal_from_event`, once the pair's legs are known. */
  function SignalFor(base: string, quote: string, currency: string, arrow: Seta): (r: Sinal)
    ensures r == SinalBuy <==>
      (arrow == Sobe && currency == base) || (arrow == Desce && currency != base && currency == quote)
    ensures r == SinalSell <==>
      (arrow == Sobe && currency != base && currency == quote) || (arrow == Desce && currency == base)
    ensures r == SinalVolatilidade <==> arrow == Volatil || (currency != base && currency != quote)
  {
    match arrow
    case Sobe => if currency == base then SinalBuy else if currency == quote then SinalSell else SinalVolatilidade
    case Desce => if currency == base then SinalSell else if currency == quote then SinalBuy else SinalVolatilidade
    case Volatil => SinalVolatilidade
  }

  function Opposite(s: Sinal): Sinal
  {
    match s
    case SinalBuy => SinalSell
    case SinalSell => SinalBuy
    case SinalVolatilidade => SinalVolatilidade
  }

  /** For distinct legs, quoting the pair the other way round swaps BUY and SELL. */
  lemma SignalSwapLegs(base: string, quote: string, currency: string, arrow: Seta)
    requires base != quote
    ensures SignalFor(quote, base, currency, arrow) == Opposite(SignalFor(base, quote, currency, arrow))
  {
  }

  /** A falling forecast gives the opposite signal of a rising one. */
  lemma SignalOppositeArrows(base: string, quote: string, currency: string)
    ensures SignalFor(base, quote, currency, Desce) == Opposite(SignalFor(base, quote, currency, Sobe))
  {
  }

  /** `signal_from_event`: parse the pair (which may fail), then apply the table. */
  function SignalFromEvent(pair: string, currency: string, arrow: Seta): (r: Result<Sinal, AnalysisError>)
    ensures r.Success? <==> ParsePair(pair).Success?
    ensures r.Failure? ==> r.error == InvalidPairFormat
    ensures r.Success? ==> r.value == SignalFor(ParsePair(pair).value.0, ParsePair(pair).value.1, currency, arrow)
  {
    var legs :- ParsePair(pair);
    Success(SignalFor(legs.0, legs.1, currency, arrow))
  }

  lemma CurrencyTexts()
    ensures "USD" != "EUR" && "usd" != "EUR" && "usd" != "USD"
  {
  }

  /** For EUR/USD: a rising USD figure is SELL, a rising EUR figure BUY; the currency is not upper-cased. */
  lemma SignalExamples()
    ensures SignalFromEvent("EUR/USD", "USD", Sobe) == Success(SinalSell)
    ensures SignalFromEvent("EUR/USD", "EUR", Sobe) == Success(SinalBuy)
    ensures SignalFromEvent("EUR/USD", "EUR", Volatil) == Success(SinalVolatilidade)
    ensures SignalFromEvent("EUR/USD", "usd", Sobe) == Success(SinalVolatilidade)
  {
    EurUsdLegs();
    CurrencyTexts();
  }

  /** The signal mapping fails on a pair that does not parse, whatever the event. */
  lemma SignalRefusedPair(pair: string, currency: string, arrow: Seta)
    requires IsLetters(pair)
    ensures SignalFromEvent(pair, currency, arrow) == Failure(InvalidPairFormat)
  {
    ParsePairNoSeparator(pair);
  }

  /** The demonstration events read against EUR/USD give SELL, BUY and the volatility signal. */
  lemma StaticDemoSignals(today: string)
    ensures var ev := StaticDemoEvents(today);
      && SignalFromEvent("EUR/USD", ev[0].moeda, ev[0].direcaoPrevista) == Success(SinalSell)
      && SignalFromEvent("EUR/USD", ev[1].moeda, ev[1].direcaoPrevista) == Success(SinalBuy)
      && SignalFromEvent("EUR/USD", ev[2].moeda, ev[2].direcaoPrevista) == Success(SinalVolatilidade)
  {
    EurUsdLegs();
  }

  /** The legs the calendar provider requests agree with `parse_pair`, falling back to EUR and USD. */
  lemma RequestCurrenciesAgree(instrumento: string)
    ensures RequestCurrencies(instrumento) ==
      if ParsePair(instrumento).Success? then [ParsePair(instrumento).value.0, ParsePair(instrumento).value.1]
      else ["EUR", "USD"]
  {
  }

  // ------------------------------------------------------------- assembly

  /** `build_context`: a fixed sentence naming the pair, timeframe and setup type; it parses the pair. */
  function BuildContext(pair: string, timeframe: string, t: SetupType): (r: Result<string, AnalysisError>)
    ensures r.Success? <==> ParsePair(pair).Success?
    ensures r.Success? ==> pair <= r.value
  {
    var _ :- ParsePair(pair);
    var rest := " apresenta tomada de liquidez recente e consolidação no " + timeframe + ". "
      + "Para " + t.Text() + ", procuramos retestes a zonas institucionais com RR competitivo, "
      + "idealmente após varrimento do extremo anterior.";
    Success(pair + rest)
  }

  /** The summary table: one row per setup. */
  function QuadroResumo(setups: seq<Setup>): (rows: seq<QuadroRow>)
    ensures |rows| == |setups|
    ensures forall i :: 0 <= i < |setups| ==>
      var s, q := setups[i], rows[i];
      q.setup == s.nome && q.direcao == s.direcao && q.entrada == s.entrada && q.sl == s.stopLoss
      && q.tp == s.takeProfit && q.rr == s.rr && q.sucesso == s.probSucesso
  {
    seq(|setups|, i requires 0 <= i < |setups| =>
      var s := setups[i];
      QuadroRow(s.nome, s.direcao, s.entrada, s.stopLoss, s.takeProfit, s.rr, s.probSucesso))
  }

  /** The `news_provider` argument: none (the demonstration provider is used), or what the given one returned or raised. */
  datatype NewsSource = DefaultProvider | Provided(events: Result<seq<RawEvent>, ProviderError>)

  function ProviderEvents(news: NewsSource, today: string): (r: Result<seq<RawEvent>, ProviderError>)
    ensures news.DefaultProvider? ==> r.Success? && |r.value| == 3 && r.value == StaticDemoEvents(today)
    ensures news.Provided? ==> r == news.events
  {
    match news
    case DefaultProvider => Success(StaticDemoEvents(today))
    case Provided(events) => events
  }

  /** Row i of the news list carries event i and its signal for the pair's legs. */
  predicate NewsRows(noticias: seq<Noticia>, events: seq<RawEvent>, base: string, quote: string)
  {
    |noticias| == |events| &&
    forall i :: 0 <= i < |events| ==>
      noticias[i] == Noticia(events[i].dataHoraLisboa, events[i].evento, events[i].moeda,
                             events[i].impacto, events[i].direcaoPrevista,
                             SignalFor(base, quote, events[i].moeda, events[i].direcaoPrevista))
  }

  /** The rows are determined by the events and the legs. */
  lemma NewsRowsUnique(a: seq<Noticia>, b: seq<Noticia>, events: seq<RawEvent>, base: string, quote: string)
    requires NewsRows(a, events, base, quote) && NewsRows(b, events, base, quote)
    ensures a == b
  {
  }

  /**
    The news list of `run_analysis`: one item per event, in order, with the
    signal for the pair's legs. The pair is parsed once per event, so an
    unparsable pair fails here only when there is at least one event.
   */
  function NewsList(pair: string, events: seq<RawEvent>): (r: Result<seq<Noticia>, AnalysisError>)
    ensures r.Success? <==> |events| == 0 || ParsePair(pair).Success?
    ensures r.Failure? ==> r.error == InvalidPairFormat
    ensures |events| == 0 ==> r == Success([])
    ensures r.Success? && ParsePair(pair).Success? ==>
      NewsRows(r.value, events, ParsePair(pair).value.0, ParsePair(pair).value.1)
  {
    if |events| == 0 then Success([])
    else
      var legs :- ParsePair(pair);
      Success(seq(|events|, i requires 0 <= i < |events| =>
        Noticia(events[i].dataHoraLisboa, events[i].evento, events[i].moeda, events[i].impacto,
                events[i].direcaoPrevista, SignalFor(legs.0, legs.1, events[i].moeda, events[i].direcaoPrevista))))
  }

  /** The news loop of `run_analysis`, which stops at the first event whose signal cannot be computed. */
  method MapNews(instrumento: string, events: seq<RawEvent>) returns (r: Result<seq<Noticia>, AnalysisError>)
    ensures r == NewsList(instrumento, events)
  {
    var noticias: seq<Noticia> := [];
    for i := 0 to |events|
      invariant |noticias| == i
      invariant i > 0 ==> ParsePair(instrumento).Success?
      invariant forall j :: 0 <= j < i ==>
        noticias[j] == Noticia(events[j].dataHoraLisboa, events[j].evento, events[j].moeda,
                               events[j].impacto, events[j].direcaoPrevista,
                               SignalFor(ParsePair(instrumento).value.0, ParsePair(instrumento).value.1,
                                         events[j].moeda, events[j].direcaoPrevista))
    {
      var ev := events[i];
      var sinal := SignalFromEvent(instrumento, ev.moeda, ev.direcaoPrevista);
      if sinal.Failure? {
        return Failure(sinal.error);
      }
      noticias := noticias + [Noticia(ev.dataHoraLisboa, ev.evento, ev.moeda, ev.impacto, ev.direcaoPrevista, sinal.value)];
    }
    if |events| > 0 {
      var legs := ParsePair(instrumento).value;
      NewsRowsUnique(noticias, NewsList(instrumento, events).value, events, legs.0, legs.1);
    }
    return Success(noticias);
  }

  /** What every assembled analysis satisfies. */
  predicate WellFormedAnalise(a: Analise)
  {
    && |a.zonasLiquidacao| == 2 && |a.zonasInstitucionais| == 2
    && a.zonasLiquidacao[0].tipo == Low && a.zonasLiquidacao[1].tipo == High
    && a.zonasInstitucionais[0].tipo == OBDeCompra && a.zonasInstitucionais[1].tipo == OBDeVenda
    && a.zonasLiquidacao[0].preco < a.zonasInstitucionais[0].limiteInferior
    && a.zonasInstitucionais[0].limiteInferior < a.zonasInstitucionais[0].limiteSuperior
    && a.zonasInstitucionais[0].limiteSuperior < a.zonasInstitucionais[1].limiteInferior
    && a.zonasInstitucionais[1].limiteInferior < a.zonasInstitucionais[1].limiteSuperior
    && a.zonasInstitucionais[1].limiteSuperior < a.zonasLiquidacao[1].preco
    && |a.setups| == 3
    && (forall i :: 0 <= i < 3 ==> WellFormedSetup(a.setups[i]) && a.setups[i].entrada == a.setups[0].entrada)
    && |a.quadroResumo| == 3
    && (forall i :: 0 <= i < 3 ==>
          var s, q := a.setups[i], a.quadroResumo[i];
          q.setup == s.nome && q.direcao == s.direcao && q.entrada == s.entrada && q.sl == s.stopLoss
          && q.tp == s.takeProfit && q.rr == s.rr && q.sucesso == s.probSucesso)
  }

  /** Zones from `make_zonas`, setups from `make_setups` and their summary rows always form a well-formed analysis. */
  lemma AssembledWellFormed(rng: Stream, t: SetupType, seed: int, scalpFirst: Direcao, a: Analise)
    requires (a.zonasLiquidacao, a.zonasInstitucionais) == MakeZonas(rng, seed)
    requires a.setups == Setups(rng, t, seed, scalpFirst)
    requires a.quadroResumo == QuadroResumo(a.setups)
    ensures WellFormedAnalise(a)
  {
    SetupsShape(rng, t, seed, scalpFirst);
  }

  /**
    `run_analysis` as a value. A provider that raises makes the whole call
    fail; so does a pair that does not unpack into two legs. Otherwise the
    result holds the zones and setups of the seed of (instrument, timeframe,
    type), the news list and a summary row per setup.
   */
  function Analyse(
    sha: Sha256, rng: Stream, scalpFirst: Direcao, clockNow: string, today: string,
    instrumento: string, timeframe: string, tipoSetup: SetupType, news: NewsSource)
    : (r: Result<Analise, AnalysisError>)
    ensures r.Success? <==> ProviderEvents(news, today).Success? && ParsePair(instrumento).Success?
  {
    var seed := SeedFrom(sha, [instrumento, timeframe, tipoSetup.Text()]);
    var setups := Setups(rng, tipoSetup, seed, scalpFirst);
    match ProviderEvents(news, today)
    case Failure(e) => Failure(ProviderFailed(e))
    case Success(events) =>
      var noticias :- NewsList(instrumento, events);
      var contexto :- BuildContext(instrumento, timeframe, tipoSetup);
      Success(Analise(instrumento, timeframe, tipoSetup, clockNow, contexto,
                      MakeZonas(rng, seed).0, MakeZonas(rng, seed).1, setups, noticias, QuadroResumo(setups)))
  }

  /**
    `run_analysis` as written: `make_zonas` raises before the provider is
    asked for events, so every request fails with the zone construction
    error. Were the zones built, the rest would be Analyse.
   */
  function AnalyseAsWritten(
    sha: Sha256, rng: Stream, scalpFirst: Direcao, clockNow: string, today: string,
    instrumento: string, timeframe: string, tipoSetup: SetupType, news: NewsSource)
    : (r: Result<Analise, AnalysisError>)
    ensures r == Failure(ZoneConstruction(PositionalArguments(3)))
  {
    var seed := SeedFrom(sha, [instrumento, timeframe, tipoSetup.Text()]);
    match MakeZonasAsWritten(rng, seed)
    case Failure(e) => Failure(ZoneConstruction(e))
    case Success(_) => Analyse(sha, rng, scalpFirst, clockNow, today, instrumento, timeframe, tipoSetup, news)
  }

  /** As written, the outcome does not depend on the news source: the provider is never reached. */
  lemma AsWrittenNeverReachesProvider(
    sha: Sha256, rng: Stream, scalpFirst: Direcao, clockNow: string, today: string,
    instrumento: string, timeframe: string, tipoSetup: SetupType, news1: NewsSource, news2: NewsSource)
    ensures AnalyseAsWritten(sha, rng, scalpFirst, clockNow, today, instrumento, timeframe, tipoSetup, news1)
         == AnalyseAsWritten(sha, rng, scalpFirst, clockNow, today, instrumento, timeframe, tipoSetup, news2)
    ensures !AnalyseAsWritten(sha, rng, scalpFirst, clockNow, today, instrumento, timeframe, tipoSetup, news1).error.ProviderFailed?
  {
  }

  /** A provider error wins over an unparsable pair; the pair is the only other cause of failure. */
  lemma AnalyseErrors(
    sha: Sha256, rng: Stream, scalpFirst: Direcao, clockNow: string, today: string,
    instrumento: string, timeframe: string, tipoSetup: SetupType, news: NewsSource)
    ensures var r := Analyse(sha, rng, scalpFirst, clockNow, today, instrumento, timeframe, tipoSetup, news);
      && (ProviderEvents(news, today).Failure? ==> r == Failure(ProviderFailed(ProviderEvents(news, today).error)))
      && (ProviderEvents(news, today).Success? && ParsePair(instrumento).Failure? ==> r == Failure(InvalidPairFormat))
  {
  }

  /** A successful analysis is well formed and echoes the request. */
  lemma AnalyseContents(
    sha: Sha256, rng: Stream, scalpFirst: Direcao, clockNow: string, today: string,
    instrumento: string, timeframe: string, tipoSetup: SetupType, news: NewsSource)
    ensures var r := Analyse(sha, rng, scalpFirst, clockNow, today, instrumento, timeframe, tipoSetup, news);
      var seed := SeedFrom(sha, [instrumento, timeframe, tipoSetup.Text()]);
      r.Success? ==>
        && WellFormedAnalise(r.value)
        && r.value.instrumento == instrumento && r.value.timeframe == timeframe
        && r.value.tipoSetup == tipoSetup && r.value.dataExecucaoLisboa == clockNow
        && instrumento <= r.value.contextoMercado
        && (r.value.zonasLiquidacao, r.value.zonasInstitucionais) == MakeZonas(rng, seed)
        && r.value.setups == Setups(rng, tipoSetup, seed, scalpFirst)
  {
    var r := Analyse(sha, rng, scalpFirst, clockNow, today, instrumento, timeframe, tipoSetup, news);
    if r.Success? {
      var seed := SeedFrom(sha, [instrumento, timeframe, tipoSetup.Text()]);
      AssembledWellFormed(rng, tipoSetup, seed, scalpFirst, r.value);
    }
  }

  /** A successful analysis has one news item per provider event, in order, with its signal. */
  lemma AnalyseNews(
    sha: Sha256, rng: Stream, scalpFirst: Direcao, clockNow: string, today: string,
    instrumento: string, timeframe: string, tipoSetup: SetupType, news: NewsSource)
    ensures var r := Analyse(sha, rng, scalpFirst, clockNow, today, instrumento, timeframe, tipoSetup, news);
      r.Success? ==>
        NewsRows(r.value.noticiasRelevantes, ProviderEvents(news, today).value,
                 ParsePair(instrumento).value.0, ParsePair(instrumento).value.1)
  {
  }

  /** `run_analysis`: seed, zones, setups, the provider's events, the news loop, the summary and the context. */
  method RunAnalysis(
    sha: Sha256, rng: Stream, scalpFirst: Direcao, clockNow: string, today: string,
    instrumento: string, timeframe: string, tipoSetup: SetupType, news: NewsSource)
    returns (r: Result<Analise, AnalysisError>)
    ensures r == Analyse(sha, rng, scalpFirst, clockNow, today, instrumento, timeframe, tipoSetup, news)
  {
    var seed := SeedFrom(sha, [instrumento, timeframe, tipoSetup.Text()]);
    var zonas := MakeZonas(rng, seed);
    var setups := MakeSetups(rng, tipoSetup, seed, scalpFirst);
    var rawNews := ProviderEvents(news, today);
    if rawNews.Failure? {
      return Failure(ProviderFailed(rawNews.error));
    }
    var noticias :- MapNews(instrumento, rawNews.value);
    var quadro := QuadroResumo(setups);
    var contexto :- BuildContext(instrumento, timeframe, tipoSetup);
    r := Success(Analise(instrumento, timeframe, tipoSetup, clockNow, contexto,
                         zonas.0, zonas.1, setups, noticias, quadro));
  }
}
