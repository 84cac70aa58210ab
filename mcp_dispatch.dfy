/**
  The chatbot's tool client: the airport database and the enrichment storage
  are loaded into the client on the first call, the tool name selects a
  handler, the arguments are bound to the handler's keyword parameters, an
  unknown name gives an error dict and every exception is turned into an
  error dict holding its message.
 */
module McpClient {
  import opened Wrappers
  import opened PyStr
  import opened PyValue
  import opened Airports
  import opened McpHandlers

  /** The tools the client has a handler for. */
  datatype Tool =
    | SearchAirportsTool
    | NearRouteTool
    | AirportDetailsTool
    | BorderCrossingTool
    | AirportStatisticsTool
    | AirportPricingTool
    | PilotReviewsTool
    | FuelPricesTool
    | WebSearchTool
    | ListRulesTool
    | CompareRulesTool

  function ToolName(t: Tool): string {
    match t
    case SearchAirportsTool => "search_airports"
    case NearRouteTool => "find_airports_near_route"
    case AirportDetailsTool => "get_airport_details"
    case BorderCrossingTool => "get_border_crossing_airports"
    case AirportStatisticsTool => "get_airport_statistics"
    case AirportPricingTool => "get_airport_pricing"
    case PilotReviewsTool => "get_pilot_reviews"
    case FuelPricesTool => "get_fuel_prices"
    case WebSearchTool => "web_search"
    case ListRulesTool => "list_rules_for_country"
    case CompareRulesTool => "compare_rules_between_countries"
  }

  /** The `if`/`elif` chain on the tool name; None is its `else`. */
  function ToolOf(name: string): (r: Option<Tool>)
    ensures r.Some? ==> ToolName(r.value) == name
  {
    if name == "search_airports" then Some(SearchAirportsTool)
    else if name == "find_airports_near_route" then Some(NearRouteTool)
    else if name == "get_airport_details" then Some(AirportDetailsTool)
    else if name == "get_border_crossing_airports" then Some(BorderCrossingTool)
    else if name == "get_airport_statistics" then Some(AirportStatisticsTool)
    else if name == "get_airport_pricing" then Some(AirportPricingTool)
    else if name == "get_pilot_reviews" then Some(PilotReviewsTool)
    else if name == "get_fuel_prices" then Some(FuelPricesTool)
    else if name == "web_search" then Some(WebSearchTool)
    else if name == "list_rules_for_country" then Some(ListRulesTool)
    else if name == "compare_rules_between_countries" then Some(CompareRulesTool)
    else None
  }

  /** Every handler is reached by its own name, so no two tools share one. */
  lemma ToolOfName(t: Tool)
    ensures ToolOf(ToolName(t)) == Some(t)
  {
    // Names of equal length differ at a known position.
    match t
    case FuelPricesTool => assert ToolName(t)[0] != "search_airports"[0];
    case AirportPricingTool => assert ToolName(t)[12] != "get_airport_details"[12];
    case ListRulesTool => assert ToolName(t)[0] != "get_airport_statistics"[0];
    case SearchAirportsTool =>
    case NearRouteTool =>
    case AirportDetailsTool =>
    case BorderCrossingTool =>
    case AirportStatisticsTool =>
    case PilotReviewsTool =>
    case WebSearchTool =>
    case CompareRulesTool =>
  }

  /** What `load_model()` gives: all airports, and the border-crossing ones. */
  datatype LoadedModel = LoadedModel(airports: seq<Airport>, borderCrossing: seq<Airport>)

  /**
    The world outside the client: the database load and the enrichment
    storage (either may raise), the handlers not modelled here, and the text
    of an exception.
   */
  datatype Backend = Backend(
    model: Query<LoadedModel>,
    enrichment: Query<EnrichmentStorage>,
    others: (string, Dict) -> Query<Dict>,
    exceptionText: string)

  /** The client's attributes: `self.model` and `self.enrichment_storage`, None when unset. */
  datatype ClientState = ClientState(model: Option<LoadedModel>, enrichment: Option<EnrichmentStorage>)

  /** The enrichment storage is only ever set together with the model. */
  predicate ValidState(st: ClientState) {
    st.model.None? ==> st.enrichment.None?
  }

  /**
    The attributes after the loading step: nothing is loaded once the model
    is set; a failing database load sets nothing; a failing enrichment
    storage leaves the model set without it.
   */
  function Loaded(st: ClientState, b: Backend): (r: ClientState)
    ensures st.model.Some? ==> r == st
    ensures st.model.None? && b.model.Raises? ==> r == st
    ensures st.model.None? && b.model.Found? ==>
      r.model == Some(b.model.value) && (r.enrichment.Some? <==> b.enrichment.Found?)
  {
    if st.model.Some? then st
    else
      match b.model
      case Raises => st
      case Found(m) => ClientState(Some(m), if b.enrichment.Found? then Some(b.enrichment.value) else None)
  }

  /** Every key of `args` is one of the handler's parameters `p` and `q`. */
  predicate KeywordsAmong(args: Dict, p: string, q: string) {
    forall i :: 0 <= i < |args| ==> args[i].0 == p || args[i].0 == q
  }

  /**
    `max_results` as the loop compares it: 20 when absent, the number given,
    None for a value `>=` cannot compare with an int.
   */
  function MaxResultsArg(args: Dict): (r: Option<real>)
    ensures !HasKey(args, "max_results") ==> r == Some(20.0)
  {
    match Lookup(args, "max_results")
    case None => Some(20.0)
    case Some(v) => if IsNumber(v) then Some(NumberValue(v)) else None
  }

  /**
    The handler called with `**arguments`. An unexpected keyword, a missing
    required one, a `query` or `icao_code` that is not a string and a missing
    enrichment storage raise; the handlers not modelled here ask `others`.
   */
  function RunTool(t: Tool, args: Dict, m: LoadedModel, e: Option<EnrichmentStorage>,
                   others: (string, Dict) -> Query<Dict>): Query<Dict> {
    match t
    case SearchAirportsTool =>
      var q := Get(args, "query", VNone);
      if !KeywordsAmong(args, "query", "max_results") || !q.VStr? then Raises
      else SearchResult(m.airports, q.s, MaxResultsArg(args))
    case BorderCrossingTool =>
      if !KeywordsAmong(args, "country", "country") then Raises
      else BorderResult(m.borderCrossing, Get(args, "country", VNone))
    case FuelPricesTool =>
      if !KeywordsAmong(args, "icao_code", "icao_code") || !HasKey(args, "icao_code") || e.None? then Raises
      else FuelPrices(e.value, Get(args, "icao_code", VNone))
    case AirportPricingTool => if e.None? then Raises else others(ToolName(t), args)
    case PilotReviewsTool => if e.None? then Raises else others(ToolName(t), args)
    case _ => others(ToolName(t), args)
  }

  /** `{"error": str(e)}` */
  function ErrorDict(text: string): Dict {
    [("error", VStr(text))]
  }

  /**
    The loading step raises: the model is unset and either the database load
    or the enrichment storage that follows it raises.
   */
  predicate LoadRaises(st: ClientState, b: Backend) {
    st.model.None? && (b.model.Raises? || b.enrichment.Raises?)
  }

  /** `_call_tool(tool_name, arguments)`: the new attributes and the result. */
  function CallToolSpec(st: ClientState, b: Backend, name: string, args: Dict): (ClientState, Dict) {
    var st' := Loaded(st, b);
    if LoadRaises(st, b) then (st', ErrorDict(b.exceptionText))
    else
      match ToolOf(name)
      case None => (st', [("error", VStr("Unknown tool: " + name))])
      case Some(t) =>
        match RunTool(t, args, st'.model.value, st'.enrichment, b.others)
        case Raises => (st', ErrorDict(b.exceptionText))
        case Found(d) => (st', d)
  }

  /** A call keeps the enrichment storage tied to the model. */
  lemma CallToolValid(st: ClientState, b: Backend, name: string, args: Dict)
    requires ValidState(st)
    ensures ValidState(CallToolSpec(st, b, name, args).0)
  {
  }

  /**
    The database is loaded at most once: once the model is set, no call
    changes the attributes, whatever the backend would give.
   */
  lemma LoadedOnce(st: ClientState, b: Backend, name: string, args: Dict, b2: Backend, name2: string, args2: Dict)
    requires st.model.Some? || b.model.Found?
    ensures CallToolSpec(st, b, name, args).0.model.Some?
    ensures var st1 := CallToolSpec(st, b, name, args).0;
      CallToolSpec(st1, b2, name2, args2).0 == st1
  {
  }

  /**
    A raising load returns the error dict and runs no tool. A failing
    database load sets nothing, so the next call loads again; a failing
    enrichment storage leaves the model set.
   */
  lemma LoadFailure(st: ClientState, b: Backend, name: string, args: Dict)
    requires st.model.None? && (b.model.Raises? || b.enrichment.Raises?)
    ensures CallToolSpec(st, b, name, args) == (Loaded(st, b), ErrorDict(b.exceptionText))
    ensures b.model.Raises? ==> Loaded(st, b) == st
    ensures b.model.Found? ==> Loaded(st, b) == ClientState(Some(b.model.value), None)
  {
  }

  /**
    When loading raises, the call returns the exception's error dict;
    otherwise an unknown name gives the "Unknown tool" error.
   */
  lemma UnknownTool(st: ClientState, b: Backend, name: string, args: Dict)
    ensures LoadRaises(st, b) ==> CallToolSpec(st, b, name, args).1 == ErrorDict(b.exceptionText)
    ensures !LoadRaises(st, b) ==> (ToolOf(name).None? <==>
      CallToolSpec(st, b, name, args).1 == [("error", VStr("Unknown tool: " + name))] &&
      !(exists t :: ToolName(t) == name))
  {
    if ToolOf(name).Some? {
      ToolOfName(ToolOf(name).value);
    } else {
      forall t ensures ToolName(t) != name {
        ToolOfName(t);
      }
    }
  }

  /** An exception in a handler becomes the error dict holding its message. */
  lemma HandlerRaises(st: ClientState, b: Backend, t: Tool, args: Dict)
    requires Loaded(st, b).model.Some?
    requires RunTool(t, args, Loaded(st, b).model.value, Loaded(st, b).enrichment, b.others).Raises?
    ensures CallToolSpec(st, b, ToolName(t), args) == (Loaded(st, b), ErrorDict(b.exceptionText))
  {
    ToolOfName(t);
  }

  /**
    When the enrichment storage fails to load beside a good model, the
    fuel-price tool fails on that call and on every later one.
   */
  lemma EnrichmentFailureSticks(st: ClientState, b: Backend, args: Dict, b2: Backend, args2: Dict)
    requires st.model.None? && b.model.Found? && b.enrichment.Raises?
    ensures CallToolSpec(st, b, "get_fuel_prices", args).1 == ErrorDict(b.exceptionText)
    ensures var st1 := CallToolSpec(st, b, "get_fuel_prices", args).0;
      CallToolSpec(st1, b2, "get_fuel_prices", args2).1 == ErrorDict(b2.exceptionText)
  {
  }

  /**
    A search with only a query runs over every airport of the model with the
    default bound of 20, unless loading raised on this call.
   */
  lemma SearchDispatch(st: ClientState, b: Backend, query: string)
    requires Loaded(st, b).model.Some?
    requires SearchResult(Loaded(st, b).model.value.airports, query, Some(20.0)).Found?
    ensures LoadRaises(st, b) ==>
      CallToolSpec(st, b, "search_airports", [("query", VStr(query))]).1 == ErrorDict(b.exceptionText)
    ensures !LoadRaises(st, b) ==>
      CallToolSpec(st, b, "search_airports", [("query", VStr(query))]).1 ==
      SearchResult(Loaded(st, b).model.value.airports, query, Some(20.0)).value
  {
    var args := [("query", VStr(query))];
    assert Lookup(args, "max_results").None?;
    assert MaxResultsArg(args) == Some(20.0);
    assert Get(args, "query", VNone) == VStr(query);
    assert KeywordsAmong(args, "query", "max_results");
    assert RunTool(SearchAirportsTool, args, Loaded(st, b).model.value, Loaded(st, b).enrichment, b.others) ==
      SearchResult(Loaded(st, b).model.value.airports, query, Some(20.0));
  }

  /** The handler call of `_call_tool`, running the modelled handlers' own methods. */
  method Dispatch(t: Tool, args: Dict, m: LoadedModel, e: Option<EnrichmentStorage>,
                  others: (string, Dict) -> Query<Dict>) returns (r: Query<Dict>)
    ensures r == RunTool(t, args, m, e, others)
  {
    match t {
      case SearchAirportsTool =>
        var q := Get(args, "query", VNone);
        if !KeywordsAmong(args, "query", "max_results") || !q.VStr? {
          r := Raises;
        } else {
          r := SearchAirports(m.airports, q.s, MaxResultsArg(args));
        }
      case BorderCrossingTool =>
        if !KeywordsAmong(args, "country", "country") {
          r := Raises;
        } else {
          r := BorderCrossingAirports(m.borderCrossing, Get(args, "country", VNone));
        }
      case FuelPricesTool =>
        if !KeywordsAmong(args, "icao_code", "icao_code") || !HasKey(args, "icao_code") || e.None? {
          r := Raises;
        } else {
          r := GetFuelPrices(e.value, Get(args, "icao_code", VNone));
        }
      case _ =>
        r := RunTool(t, args, m, e, others);
    }
  }

  /** The client object, its attributes set by the first call. */
  class Client {
    var model: Option<LoadedModel>
    var enrichment: Option<EnrichmentStorage>

    function State(): ClientState
      reads this
    {
      ClientState(model, enrichment)
    }

    ghost predicate Valid()
      reads this
    {
      ValidState(State())
    }

    constructor()
      ensures model.None? && enrichment.None?
      ensures Valid()
    {
      model := None;
      enrichment := None;
    }

    /** Load the database on first use, then dispatch on the tool name. */
    method CallTool(b: Backend, name: string, args: Dict) returns (result: Dict)
      requires Valid()
      modifies this
      ensures Valid()
      ensures (State(), result) == CallToolSpec(old(State()), b, name, args)
    {
      if model.None? {
        if b.model.Raises? {
          return ErrorDict(b.exceptionText);
        }
        model := Some(b.model.value);
        if b.enrichment.Raises? {
          return ErrorDict(b.exceptionText);
        }
        enrichment := Some(b.enrichment.value);
      }
      var tool := ToolOf(name);
      if tool.None? {
        return [("error", VStr("Unknown tool: " + name))];
      }
      var r := Dispatch(tool.value, args, model.value, enrichment, b.others);
      result := if r.Raises? then ErrorDict(b.exceptionText) else r.value;
    }
  }
}
