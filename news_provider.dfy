/**
  The news providers: the static demonstration provider, and the per-record
  normalisation of the TradingEconomics calendar provider. The HTTP request,
  JSON decoding and time-zone conversion are parameters: `fetch` stands for
  the request (None when it raised), `toLisbon` for the ISO-8601 parse and
  conversion to Europe/Lisbon (None when it raised), and `render` for Python's
  `str()` of a number, list or dict.
 */
module NewsProvider {
  import opened Wrappers
  import opened PyStrings
  import opened Schemas

  /** One event as a provider hands it to the analysis (a plain dict in the source). */
  datatype RawEvent = RawEvent(
    dataHoraLisboa: string,
    evento: string,
    moeda: string,
    impacto: Impacto,
    direcaoPrevista: Seta)

  /**
    StaticDemoNewsProvider.get_events: three fixed events of `today`
    (the date "YYYY-MM-DD" in Europe/Lisbon), whatever the instrument.
   */
  function StaticDemoEvents(today: string): (r: seq<RawEvent>)
    ensures |r| == 3
    ensures r[0].moeda == "USD" && r[1].moeda == "EUR" && r[2].moeda == "USD"
    ensures r[0].direcaoPrevista == Sobe && r[1].direcaoPrevista == Sobe && r[2].direcaoPrevista == Volatil
    ensures r[0].impacto == Alto && r[1].impacto == Medio && r[2].impacto == Medio
    ensures forall i :: 0 <= i < |r| ==> today <= r[i].dataHoraLisboa
  {
    [ RawEvent(today + " 13:30", "US Core PCE Price Index (m/m)", "USD", Alto, Sobe),
      RawEvent(today + " 07:00", "DE CPI (m/m)", "EUR", Medio, Sobe),
      RawEvent(today + " 15:00", "US ISM Manufacturing PMI", "USD", Medio, Volatil) ]
  }

  /** A decoded standard JSON value as Python holds it (no NaN or infinities). */
  datatype Json =
    | JNull
    | JBool(b: bool)
    | JInt(i: int)
    | JFloat(f: real)
    | JStr(s: string)
    | JList(items: seq<Json>)
    | JDict(fields: map<string, Json>)

  /** Python truthiness. */
  predicate Truthy(j: Json)
  {
    match j
    case JNull => false
    case JBool(b) => b
    case JInt(i) => i != 0
    case JFloat(f) => f != 0.0
    case JStr(s) => s != ""
    case JList(items) => items != []
    case JDict(fields) => fields != map[]
  }

  /** Python's `a or b`. */
  function Or(a: Json, b: Json): Json
  {
    if Truthy(a) then a else b
  }

  /** `ev.get(key)`: None for a missing key. */
  function Get(ev: map<string, Json>, key: string): Json
  {
    if key in ev then ev[key] else JNull
  }

  /** `isinstance(x, (int, float))`; `bool` is a subclass of `int`, so booleans count. */
  predicate IsNumber(j: Json)
  {
    j.JBool? || j.JInt? || j.JFloat?
  }

  function NumberValue(j: Json): real
    requires IsNumber(j)
  {
    match j
    case JBool(b) => if b then 1.0 else 0.0
    case JInt(i) => i as real
    case JFloat(f) => f
  }

  /** `str(x)`. */
  function PyStr(j: Json, render: Json -> string): string
  {
    match j
    case JStr(s) => s
    case JNull => "None"
    case JBool(b) => if b then "True" else "False"
    case _ => render(j)
  }

  /**
    Exceptions a provider's `get_events` raises. The calendar provider raises
    the first two for a malformed calendar and does not catch them; any other
    provider may raise anything, e.g. the base class's `NotImplementedError`.
   */
  datatype ProviderError =
    | NotADict              // AttributeError: a calendar entry has no `.get`
    | Unhashable            // TypeError: a list or dict looked up in the impact map
    | Raised(name: string)  // any other exception, by its class name

  /** `impact_map.get(importance, "Médio")`. */
  function ImpactOf(importance: Json): (r: Result<Impacto, ProviderError>)
    ensures r.Failure? <==> importance.JList? || importance.JDict?
    ensures r.Failure? ==> r.error == Unhashable
    ensures r == Success(Baixo) <==> importance == JStr("Low")
    ensures r == Success(Alto) <==> importance == JStr("High")
    ensures r == Success(Medio) <==>
      !importance.JList? && !importance.JDict? && importance != JStr("Low") && importance != JStr("High")
  {
    match importance
    case JList(_) => Failure(Unhashable)
    case JDict(_) => Failure(Unhashable)
    case JStr(s) =>
      if s == "Low" then Success(Baixo)
      else if s == "Medium" then Success(Medio)
      else if s == "High" then Success(Alto)
      else Success(Medio)
    case _ => Success(Medio)
  }

  /** The forecast-versus-previous rule; a tie counts as "↓". */
  function DirectionOf(forecast: Json, previous: Json): (r: Seta)
    ensures r == Sobe <==>
      IsNumber(forecast) && IsNumber(previous) && NumberValue(forecast) > NumberValue(previous)
    ensures r == Desce <==>
      IsNumber(forecast) && IsNumber(previous) && NumberValue(forecast) <= NumberValue(previous)
    ensures r == Volatil <==> !IsNumber(forecast) || !IsNumber(previous)
  {
    if IsNumber(forecast) && IsNumber(previous) then
      if NumberValue(forecast) > NumberValue(previous) then Sobe else Desce
    else Volatil
  }

  /** Booleans pass the numeric test; strings holding numbers do not. */
  lemma DirectionOfExamples()
    ensures DirectionOf(JBool(true), JInt(0)) == Sobe
    ensures DirectionOf(JFloat(0.5), JInt(1)) == Desce
    ensures DirectionOf(JInt(2), JInt(2)) == Desce
    ensures DirectionOf(JStr("2"), JInt(1)) == Volatil
    ensures DirectionOf(JInt(2), JNull) == Volatil
  {
  }

  function EventField(ev: map<string, Json>): Json
  {
    Or(Get(ev, "Event"), Or(Get(ev, "Category"), JStr("Evento")))
  }

  function CurrencyField(ev: map<string, Json>): Json
  {
    Or(Get(ev, "Currency"), Or(Get(ev, "Country"), JStr("")))
  }

  function ImportanceField(ev: map<string, Json>): Json
  {
    Or(Get(ev, "Importance"), Or(Get(ev, "Impact"), JStr("")))
  }

  function DateField(ev: map<string, Json>): Json
  {
    Or(Get(ev, "Date"), Or(Get(ev, "DateUtc"), Or(Get(ev, "DateISO"), JStr(""))))
  }

  /** The Lisbon time of an event, or midnight of `today` when the date cannot be converted. */
  function LisbonTime(dtUtc: Json, today: string, toLisbon: string -> Option<string>): string
  {
    if dtUtc.JStr? && toLisbon(dtUtc.s).Some? then toLisbon(dtUtc.s).value else today + " 00:00"
  }

  /** The body of the loop over the calendar in TradingEconomicsNewsProvider.get_events. */
  function NormaliseRecord(
    ev: Json, today: string, toLisbon: string -> Option<string>, render: Json -> string)
    : (r: Result<RawEvent, ProviderError>)
    ensures !ev.JDict? ==> r == Failure(NotADict)
    ensures ev.JDict? ==> (r.Failure? <==> ImpactOf(ImportanceField(ev.fields)).Failure?)
    ensures r.Success? ==>
      var f := ev.fields;
      && r.value.impacto == ImpactOf(ImportanceField(f)).value
      && r.value.direcaoPrevista == DirectionOf(Get(f, "Forecast"), Get(f, "Previous"))
      && |r.value.moeda| <= 3
      && (Truthy(Get(f, "Currency")) ==> r.value.moeda == Take(PyStr(Get(f, "Currency"), render), 3))
      && (!Truthy(Get(f, "Currency")) && Truthy(Get(f, "Country")) ==>
            r.value.moeda == Take(PyStr(Get(f, "Country"), render), 3))
      && (!Truthy(Get(f, "Currency")) && !Truthy(Get(f, "Country")) ==> r.value.moeda == "")
      && (Truthy(Get(f, "Event")) ==> r.value.evento == PyStr(Get(f, "Event"), render))
      && (!Truthy(Get(f, "Event")) && Truthy(Get(f, "Category")) ==>
            r.value.evento == PyStr(Get(f, "Category"), render))
      && (!Truthy(Get(f, "Event")) && !Truthy(Get(f, "Category")) ==> r.value.evento == "Evento")
  {
    match ev
    case JDict(f) =>
      var lis := LisbonTime(DateField(f), today, toLisbon);
      var event := EventField(f);
      var currency := CurrencyField(f);
      var impacto := ImpactOf(ImportanceField(f));
      if impacto.Failure? then Failure(impacto.error)
      else
        var direcao := DirectionOf(Get(f, "Forecast"), Get(f, "Previous"));
        Success(RawEvent(
          lis,
          PyStr(event, render),
          if Truthy(currency) then Take(PyStr(currency, render), 3) else "",
          impacto.value,
          direcao))
    case _ => Failure(NotADict)
  }

  /**
    The two currency legs the provider asks the calendar for: those of the
    pair when the instrument has exactly one '/' or '-', else EUR and USD.
   */
  function RequestCurrencies(instrumento: string): (r: seq<string>)
    ensures |r| == 2
    ensures Count(instrumento, '/') + Count(instrumento, '-') != 1 ==> r == ["EUR", "USD"]
  {
    CountNormalisePair(instrumento);
    var parts := Split(NormalisePair(instrumento), '/');
    if |parts| == 2 then [Strip(parts[0]), Strip(parts[1])] else ["EUR", "USD"]
  }

  /** `NewsProvider.get_events` of the base class: it raises for every instrument. */
  function BaseGetEvents(instrumento: string): (r: Result<seq<RawEvent>, ProviderError>)
    ensures r.Failure? && r.error.Raised?
  {
    Failure(Raised("NotImplementedError"))
  }

  /** The provider's configuration: the API key it was built with, if any. */
  datatype TradingEconomicsNewsProvider = TradingEconomicsNewsProvider(apiKey: Option<string>)

  /** `not self.api_key` fails for a missing or empty key. */
  predicate HasKey(p: TradingEconomicsNewsProvider)
  {
    p.apiKey.Some? && p.apiKey.value != ""
  }

  /**
    `out` normalises `items` one by one, in order, when every item normalises;
    otherwise the error is that of the first item that does not.
   */
  ghost predicate NormalisesAll(
    items: seq<Json>, r: Result<seq<RawEvent>, ProviderError>,
    today: string, toLisbon: string -> Option<string>, render: Json -> string)
  {
    && (r.Success? <==> forall i :: 0 <= i < |items| ==> NormaliseRecord(items[i], today, toLisbon, render).Success?)
    && (r.Success? ==>
          |r.value| == |items| &&
          forall i :: 0 <= i < |items| ==> r.value[i] == NormaliseRecord(items[i], today, toLisbon, render).value)
    && (r.Failure? ==>
          exists i :: 0 <= i < |items| && NormaliseRecord(items[i], today, toLisbon, render) == Failure(r.error)
                      && forall j :: 0 <= j < i ==> NormaliseRecord(items[j], today, toLisbon, render).Success?)
  }

  /** TradingEconomicsNewsProvider.get_events. */
  method TradingEconomicsGetEvents(
    provider: TradingEconomicsNewsProvider, httpxAvailable: bool, instrumento: string, today: string,
    fetch: seq<string> -> Option<Json>, toLisbon: string -> Option<string>, render: Json -> string)
    returns (r: Result<seq<RawEvent>, ProviderError>)
    ensures !httpxAvailable || !HasKey(provider) ==> r == Success([])
    ensures httpxAvailable && HasKey(provider) ==>
      var data := fetch(RequestCurrencies(instrumento));
      && (data.None? || !data.value.JList? ==> r == Success([]))
      && (data.Some? && data.value.JList? ==> NormalisesAll(data.value.items, r, today, toLisbon, render))
  {
    if !httpxAvailable || !HasKey(provider) {
      return Success([]);
    }
    var currencies := RequestCurrencies(instrumento);
    var data := fetch(currencies);
    if data.None? {
      return Success([]);
    }
    var items := if data.value.JList? then data.value.items else [];
    var out: seq<RawEvent> := [];
    for i := 0 to |items|
      invariant |out| == i
      invariant forall j :: 0 <= j < i ==>
        NormaliseRecord(items[j], today, toLisbon, render).Success? &&
        out[j] == NormaliseRecord(items[j], today, toLisbon, render).value
    {
      var rec := NormaliseRecord(items[i], today, toLisbon, render);
      if rec.Failure? {
        return Failure(rec.error);
      }
      out := out + [rec.value];
    }
    return Success(out);
  }
}
