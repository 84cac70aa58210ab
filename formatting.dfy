/**
  The UI payload the aviation agent attaches to an answer: the tool that was
  run decides the payload's `kind` (route, airport or rules), the plan's
  arguments give a few kind-specific fields, and the most used parts of the
  tool result (filter profile, visualization, airports) are copied to the top
  level next to the full result under `mcp_raw`.
 */
module Formatting {
  import opened Wrappers
  import opened PyValue

  const RouteTools: set<string> :=
    {"search_airports", "find_airports_near_route", "find_airports_near_location"}

  const AirportTools: set<string> :=
    {"get_airport_details", "get_border_crossing_airports", "get_airport_statistics",
     "get_airport_pricing", "get_pilot_reviews", "get_fuel_prices"}

  const RulesTools: set<string> :=
    {"list_rules_for_country", "compare_rules_between_countries", "get_answers_for_questions",
     "list_rule_categories_and_tags", "list_rule_countries"}

  /** The planner's choice: a tool name and the arguments to call it with. */
  datatype AviationPlan = AviationPlan(selectedTool: string, arguments: seq<(string, Value)>)

  /** `plan.arguments.get(k)` */
  function Arg(plan: AviationPlan, k: string): Value {
    Get(plan.arguments, k, VNone)
  }

  /**
    The payload dict: one field per key `build_ui_payload` may write, None
    where the key is absent.
   */
  datatype UiPayload = UiPayload(
    kind: string,
    mcpRaw: seq<(string, Value)>,
    departure: Option<Value>,
    destination: Option<Value>,
    ifr: Option<Value>,
    icao: Option<Value>,
    region: Option<Value>,
    topic: Option<Value>,
    filters: Option<Value>,
    visualization: Option<Value>,
    airports: Option<Value>)

  /** The payload kind of a tool; None for a tool the UI has no view for. */
  function DetermineKind(toolName: string): (r: Option<string>)
    ensures r == Some("route") <==> toolName in RouteTools
    ensures r == Some("airport") <==> toolName in AirportTools
    ensures r == Some("rules") <==> toolName in RulesTools
    ensures r.None? <==> toolName !in RouteTools + AirportTools + RulesTools
  {
    if toolName in RouteTools then Some("route")
    else if toolName in AirportTools then Some("airport")
    else if toolName in RulesTools then Some("rules")
    else None
  }

  /** The three tool families are disjoint, so the kind of a tool is never ambiguous. */
  lemma ToolFamiliesDisjoint()
    ensures RouteTools * AirportTools == {}
    ensures RouteTools * RulesTools == {}
    ensures AirportTools * RulesTools == {}
  {
    assert forall t :: t in AirportTools ==> t !in RouteTools;
    assert forall t :: t in RulesTools ==> t !in RouteTools && t !in AirportTools;
  }

  /**
    The payload, or None when the tool result is falsy (absent or empty) or the
    tool has no kind. In the airport branch the source also tries to take the
    ident of a search result's first airport, but that test asks for
    search_airports, a route tool, so it never succeeds and is not modelled.
   */
  function BuildUiPayload(plan: AviationPlan, toolResult: Option<seq<(string, Value)>>): (r: Option<UiPayload>)
    ensures r.Some? <==> toolResult.Some? && toolResult.value != [] && DetermineKind(plan.selectedTool).Some?
    ensures r.Some? ==> r.value.kind == DetermineKind(plan.selectedTool).value && r.value.mcpRaw == toolResult.value
  {
    if toolResult.None? || toolResult.value == [] then None
    else
      match DetermineKind(plan.selectedTool)
      case None => None
      case Some(kind) =>
        var tr := toolResult.value;
        var route := kind == "route";
        var airport := kind == "airport";
        var rules := kind == "rules";
        Some(UiPayload(
          kind, tr,
          if route then Some(Or(Arg(plan, "from_icao"), Arg(plan, "departure"))) else None,
          if route then Some(Or(Arg(plan, "to_icao"), Arg(plan, "destination"))) else None,
          if route && Arg(plan, "ifr") != VNone then Some(Arg(plan, "ifr")) else None,
          if airport then Some(Or(Arg(plan, "icao"), Arg(plan, "icao_code"))) else None,
          if rules then Some(Or(Arg(plan, "region"), Arg(plan, "country_code"))) else None,
          if rules then Some(Or(Arg(plan, "topic"), Arg(plan, "category"))) else None,
          Lookup(tr, "filter_profile"),
          Lookup(tr, "visualization"),
          Lookup(tr, "airports")))
  }

  /**
    Which tool families fill which fields: departure and destination exactly
    for route tools, `ifr` exactly for a route tool whose argument is not None,
    `icao` exactly for airport tools, region and topic exactly for rules tools;
    each filled field is the first truthy of its two argument names.
   */
  lemma PayloadFieldsFollowTool(plan: AviationPlan, tr: seq<(string, Value)>)
    requires tr != [] && DetermineKind(plan.selectedTool).Some?
    ensures var p := BuildUiPayload(plan, Some(tr)).value;
      var tool := plan.selectedTool;
      && (p.departure.Some? <==> tool in RouteTools)
      && (p.destination.Some? <==> tool in RouteTools)
      && (p.ifr.Some? <==> tool in RouteTools && Arg(plan, "ifr") != VNone)
      && (p.icao.Some? <==> tool in AirportTools)
      && (p.region.Some? <==> tool in RulesTools)
      && (p.topic.Some? <==> tool in RulesTools)
      && (p.departure.Some? ==> p.departure.value == Or(Arg(plan, "from_icao"), Arg(plan, "departure")))
      && (p.destination.Some? ==> p.destination.value == Or(Arg(plan, "to_icao"), Arg(plan, "destination")))
      && (p.ifr.Some? ==> p.ifr.value == Arg(plan, "ifr"))
      && (p.icao.Some? ==> p.icao.value == Or(Arg(plan, "icao"), Arg(plan, "icao_code")))
      && (p.region.Some? ==> p.region.value == Or(Arg(plan, "region"), Arg(plan, "country_code")))
      && (p.topic.Some? ==> p.topic.value == Or(Arg(plan, "topic"), Arg(plan, "category")))
  {
  }

  /**
    The flattened fields are present exactly when the tool result has the key,
    and hold the same value as the copy kept under `mcp_raw`.
   */
  lemma PayloadFlattensResult(plan: AviationPlan, tr: seq<(string, Value)>)
    requires tr != [] && DetermineKind(plan.selectedTool).Some?
    ensures var p := BuildUiPayload(plan, Some(tr)).value;
      && (p.filters.Some? <==> HasKey(p.mcpRaw, "filter_profile"))
      && (p.visualization.Some? <==> HasKey(p.mcpRaw, "visualization"))
      && (p.airports.Some? <==> HasKey(p.mcpRaw, "airports"))
      && (p.filters.Some? ==> p.filters.value == Get(p.mcpRaw, "filter_profile", VNone))
      && (p.visualization.Some? ==> p.visualization.value == Get(p.mcpRaw, "visualization", VNone))
      && (p.airports.Some? ==> p.airports.value == Get(p.mcpRaw, "airports", VNone))
  {
  }

  /**
    A search_airports payload never carries an `icao`, whatever the result's
    airports: search_airports is a route tool.
   */
  lemma SearchPayloadHasNoIcao(plan: AviationPlan, tr: seq<(string, Value)>)
    requires plan.selectedTool == "search_airports" && tr != []
    ensures BuildUiPayload(plan, Some(tr)).Some?
    ensures BuildUiPayload(plan, Some(tr)).value.icao.None?
    ensures BuildUiPayload(plan, Some(tr)).value.kind == "route"
  {
  }
}
