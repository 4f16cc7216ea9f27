/**
  The records and closed vocabularies (`Literal` types) of the analysis
  result. Prices are integers in units of 0.00001, risk/reward ratios are
  integers in hundredths, success probabilities are whole percentages.
 */
module Schemas {

  datatype SetupType = Scalp | Intradia | Swing
  {
    /** The literal the source hashes and prints. */
    function Text(): string
    {
      match this
      case Scalp => "Scalp"
      case Intradia => "Intradia"
      case Swing => "Swing"
    }
  }

  /** Outcome of one checklist criterion: green, amber, red. */
  datatype Estado = VERDE | AMARELO | VERMELHO

  datatype ChecklistItem = ChecklistItem(criterio: string, estado: Estado)

  /** Trade direction of a setup. */
  datatype Direcao = BUY | SELL
  {
    function Text(): string
    {
      if this == BUY then "BUY" else "SELL"
    }

    function Flip(): Direcao
    {
      if this == BUY then SELL else BUY
    }
  }

  datatype Setup = Setup(
    nome: string,
    direcao: Direcao,
    entrada: int,
    stopLoss: int,
    takeProfit: int,
    rr: int,
    probSucesso: int,
    checklist: seq<ChecklistItem>,
    explicacao: string)

  datatype TipoLiquidez = High | Low

  datatype ZonaLiquidacao = ZonaLiquidacao(tipo: TipoLiquidez, preco: int)

  /** "OB de Compra" and "OB de Venda": buy-side and sell-side order blocks. */
  datatype TipoInstitucional = OBDeCompra | OBDeVenda

  datatype ZonaInstitucional = ZonaInstitucional(
    tipo: TipoInstitucional, limiteInferior: int, limiteSuperior: int)

  /** Event impact: "Baixo", "Médio", "Alto". */
  datatype Impacto = Baixo | Medio | Alto

  /** Forecast direction of an event: "↑", "↓", "Volátil". */
  datatype Seta = Sobe | Desce | Volatil

  /** Signal for the pair: "BUY", "SELL", "BUY/SELL (volatilidade)". */
  datatype Sinal = SinalBuy | SinalSell | SinalVolatilidade

  datatype Noticia = Noticia(
    dataHoraLisboa: string,
    evento: string,
    moeda: string,
    impacto: Impacto,
    direcaoPrevista: Seta,
    sinalPar: Sinal)

  /** One row of the summary table (`quadro_resumo`). */
  datatype QuadroRow = QuadroRow(
    setup: string,
    direcao: Direcao,
    entrada: int,
    sl: int,
    tp: int,
    rr: int,
    sucesso: int)

  datatype Analise = Analise(
    instrumento: string,
    timeframe: string,
    tipoSetup: SetupType,
    dataExecucaoLisboa: string,
    contextoMercado: string,
    zonasLiquidacao: seq<ZonaLiquidacao>,
    zonasInstitucionais: seq<ZonaInstitucional>,
    setups: seq<Setup>,
    noticiasRelevantes: seq<Noticia>,
    quadroResumo: seq<QuadroRow>)
}
