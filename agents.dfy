/**
 * The mock agent-progress route (`POST /api/agents`). `start` hands out
 * copies of a static agent team and the four static flow steps; `progress`
 * advances copies of the market-analysis team and of the static flow by
 * random, clamped increments. Every `Math.random()` draw is a parameter in
 * [0, 1); JavaScript numbers are modelled as reals.
 */
module Agents {
  import opened Util

  // ---------------------------------------------------------------------
  // Data model

  datatype StepStatus = Pending | InProgress | Completed

  datatype Agent = Agent(id: int, name: string, status: string, progress: real)

  /** The `data` object of a flow step: optional string lists and a completion percentage. */
  datatype StepData = StepData(
    sources: Option<seq<string>>,
    metrics: Option<seq<string>>,
    indicators: Option<seq<string>>,
    patterns: Option<seq<string>>,
    models: Option<seq<string>>,
    range: Option<seq<string>>,
    confidence: Option<string>,
    completion: real)

  datatype FlowStep = FlowStep(id: int, title: string, status: StepStatus, agent: string, data: StepData)

  /** The `agents` and `flow` arrays of a successful reply. */
  datatype Snapshot = Snapshot(agents: seq<Agent>, flow: seq<FlowStep>)

  /**
   * A request body that parsed and could be destructured. A field is None
   * when it is missing; `kind` is the property key `type` is converted to.
   */
  datatype AgentsRequest = AgentsRequest(action: Option<string>, kind: Option<string>)

  datatype AgentsReply = Success(snapshot: Snapshot) | Failure(error: string)

  datatype AgentsResponse = AgentsResponse(status: int, reply: AgentsReply)

  // ---------------------------------------------------------------------
  // Static data

  const MarketAnalysis: seq<Agent> := [
    Agent(1, "Market Analyst", "Analyzing price trends...", 0.0),
    Agent(2, "Data Researcher", "Gathering market data...", 0.0),
    Agent(3, "Valuation Expert", "Computing valuations...", 0.0)
  ]

  const TechnicalAnalysis: seq<Agent> := [
    Agent(1, "Technical Analyst", "Analyzing chart patterns...", 0.0),
    Agent(2, "Momentum Trader", "Checking momentum indicators...", 0.0),
    Agent(3, "Risk Manager", "Assessing risk metrics...", 0.0)
  ]

  const FundamentalAnalysis: seq<Agent> := [
    Agent(1, "Fundamental Analyst", "Evaluating network metrics...", 0.0),
    Agent(2, "On-chain Analyst", "Analyzing blockchain data...", 0.0),
    Agent(3, "Macro Economist", "Assessing macro factors...", 0.0)
  ]

  const FlowSteps: seq<FlowStep> := [
    FlowStep(1, "Data Collection", Pending, "Data Researcher",
      StepData(
        Some(["CoinGecko API", "DeFiPulse", "On-chain Analytics", "TradingView"]),
        Some(["Price: $43,250", "Volume: $18.2B", "Market Cap: $850B", "24h Change: +2.4%"]),
        None, None, None, None, None, 0.0)),
    FlowStep(2, "Technical Analysis", Pending, "Market Analyst",
      StepData(
        None, None,
        Some(["RSI: 65.2", "MACD: Bullish", "Support: $42K", "Resistance: $46K"]),
        Some(["Ascending Triangle", "Volume Confirmation", "Bullish Divergence"]),
        None, None, None, 0.0)),
    FlowStep(3, "Fundamental Analysis", Pending, "Valuation Expert",
      StepData(
        None,
        Some(["NVT Ratio: 45.2", "MVRV: 2.1", "Active Addresses: 1.2M", "Hash Rate: 450 EH/s"]),
        None, None,
        Some(["Stock-to-Flow", "Metcalfe's Law", "NVT Model", "Rainbow Chart"]),
        None, None, 0.0)),
    FlowStep(4, "Final Valuation", Pending, "Valuation Expert",
      StepData(
        None, None, None, None, None,
        Some(["Conservative: $38K", "Base: $45K", "Optimistic: $52K"]),
        Some("78%"), 0.0))
  ]

  /** The own keys of `agentConfigs`. */
  const ConfigNames: set<string> := {"market_analysis", "technical_analysis", "fundamental_analysis"}

  /**
   * Keys every plain object inherits from `Object.prototype`. Looking one of
   * them up in `agentConfigs` yields a function or an object: truthy, so the
   * fallback is not taken, and without a `map` method.
   */
  const InheritedNames: set<string> := {
    "constructor", "hasOwnProperty", "isPrototypeOf", "propertyIsEnumerable",
    "toLocaleString", "toString", "valueOf", "__proto__",
    "__defineGetter__", "__defineSetter__", "__lookupGetter__", "__lookupSetter__"
  }

  function Config(kind: string): seq<Agent>
    requires kind in ConfigNames
  {
    if kind == "technical_analysis" then TechnicalAnalysis
    else if kind == "fundamental_analysis" then FundamentalAnalysis
    else MarketAnalysis
  }

  // ---------------------------------------------------------------------
  // Status and increments

  /** The status a completion percentage stands for. */
  function StatusOf(completion: real): (s: StepStatus)
    ensures s == Completed <==> completion >= 100.0
    ensures s == InProgress <==> 0.0 < completion < 100.0
    ensures s == Pending <==> completion <= 0.0
  {
    if completion >= 100.0 then Completed
    else if completion > 0.0 then InProgress
    else Pending
  }

  /** `Math.min(agent.progress + Math.random() * 15, 100)` applied to one agent. */
  function AdvanceAgent(a: Agent, draw: real): (r: Agent)
    requires 0.0 <= draw < 1.0
    ensures r == a.(progress := r.progress)
    ensures r.progress <= 100.0 && r.progress < a.progress + 15.0
    ensures a.progress <= 100.0 ==> a.progress <= r.progress
    ensures a.progress + draw * 15.0 <= 100.0 ==> r.progress == a.progress + draw * 15.0
    ensures a.progress + draw * 15.0 >= 100.0 ==> r.progress == 100.0
  {
    a.(progress := MinReal(a.progress + draw * 15.0, 100.0))
  }

  /**
   * The increment a step gets: a first draw above 0.3 (a 70% chance) lets a
   * second draw scaled to [0, 20) through; otherwise nothing.
   */
  function StepIncrement(flip: real, amount: real): (inc: real)
    requires 0.0 <= amount < 1.0
    ensures 0.0 <= inc < 20.0
    ensures flip <= 0.3 ==> inc == 0.0
  {
    if flip > 0.3 then amount * 20.0 else 0.0
  }

  /**
   * One flow step of `progress`: completion grows by the clamped increment,
   * while the status is computed from the completion the step had BEFORE
   * the increment.
   */
  function AdvanceStep(s: FlowStep, flip: real, amount: real): (r: FlowStep)
    requires 0.0 <= amount < 1.0
    ensures r == s.(status := r.status, data := s.data.(completion := r.data.completion))
    ensures r.status == StatusOf(s.data.completion)
    ensures r.data.completion <= 100.0 && r.data.completion < s.data.completion + 20.0
    ensures s.data.completion <= 100.0 ==> s.data.completion <= r.data.completion
    ensures flip <= 0.3 && s.data.completion <= 100.0 ==> r.data.completion == s.data.completion
    ensures var c := s.data.completion + StepIncrement(flip, amount);
      (c <= 100.0 ==> r.data.completion == c) && (c >= 100.0 ==> r.data.completion == 100.0)
  {
    var inc := StepIncrement(flip, amount);
    s.(data := s.data.(completion := MinReal(s.data.completion + inc, 100.0)),
       status := StatusOf(s.data.completion))
  }

  // ---------------------------------------------------------------------
  // Actions

  /**
   * `start`: the team named by `kind`, or the market-analysis team for a
   * missing or unknown kind, together with the static flow. None when the
   * lookup lands on an inherited key, where `.map` throws.
   */
  function Start(kind: Option<string>): (r: Option<Snapshot>)
    ensures r.None? <==> kind.Some? && kind.value in InheritedNames
    ensures r.Some? && kind.Some? && kind.value in ConfigNames ==> r.value.agents == Config(kind.value)
    ensures r.Some? && !(kind.Some? && kind.value in ConfigNames) ==> r.value.agents == MarketAnalysis
    ensures r.Some? ==> r.value.flow == FlowSteps
  {
    if kind.Some? && kind.value in ConfigNames then Some(Snapshot(Config(kind.value), FlowSteps))
    else if kind.Some? && kind.value in InheritedNames then None
    else Some(Snapshot(MarketAnalysis, FlowSteps))
  }

  /** Everything `start` hands out begins at zero: progress 0, completion 0, status pending. */
  lemma StartIsFresh(kind: Option<string>)
    requires Start(kind).Some?
    ensures var s := Start(kind).value;
      && |s.agents| == 3 && |s.flow| == 4
      && (forall a :: a in s.agents ==> a.progress == 0.0)
      && (forall i :: 0 <= i < 4 ==>
            s.flow[i].id == i + 1 && s.flow[i].data.completion == 0.0 && s.flow[i].status == Pending)
  {
  }

  /** `start` with "technical_analysis" hands out that team, by name. */
  lemma StartTechnical()
    ensures var s := Start(Some("technical_analysis"));
      s.Some? && |s.value.agents| == 3
      && s.value.agents[0].name == "Technical Analyst"
      && s.value.agents[1].name == "Momentum Trader"
      && s.value.agents[2].name == "Risk Manager"
  {
  }

  /**
   * `progress`: one draw per agent of the market-analysis team, then a
   * (flip, amount) pair per static flow step. It always starts from the
   * static tables, so progress and completion equal the scaled draws, and
   * every status is still pending.
   */
  function Progress(agentDraws: seq<real>, stepDraws: seq<(real, real)>): (r: Snapshot)
    requires |agentDraws| == |MarketAnalysis| && forall i :: 0 <= i < |agentDraws| ==> 0.0 <= agentDraws[i] < 1.0
    requires |stepDraws| == |FlowSteps| && forall i :: 0 <= i < |stepDraws| ==> 0.0 <= stepDraws[i].1 < 1.0
    ensures |r.agents| == 3 && |r.flow| == 4
    ensures forall i :: 0 <= i < 3 ==>
      && r.agents[i] == MarketAnalysis[i].(progress := r.agents[i].progress)
      && r.agents[i].progress == agentDraws[i] * 15.0
    ensures forall i :: 0 <= i < 4 ==>
      && r.flow[i] == FlowSteps[i].(data := FlowSteps[i].data.(completion := r.flow[i].data.completion))
      && r.flow[i].id == i + 1
      && r.flow[i].status == Pending
      && r.flow[i].data.completion == StepIncrement(stepDraws[i].0, stepDraws[i].1)
  {
    Snapshot(
      seq(|MarketAnalysis|, i requires 0 <= i < |MarketAnalysis| => AdvanceAgent(MarketAnalysis[i], agentDraws[i])),
      seq(|FlowSteps|, i requires 0 <= i < |FlowSteps| => AdvanceStep(FlowSteps[i], stepDraws[i].0, stepDraws[i].1)))
  }

  /**
   * The reported status lags the reported completion: a step whose flip
   * succeeds with a positive amount comes back with a positive completion
   * but still marked pending, unlike `StatusOf` of that completion.
   */
  lemma ProgressStatusLags(agentDraws: seq<real>, stepDraws: seq<(real, real)>, i: nat)
    requires |agentDraws| == |MarketAnalysis| && forall j :: 0 <= j < |agentDraws| ==> 0.0 <= agentDraws[j] < 1.0
    requires |stepDraws| == |FlowSteps| && forall j :: 0 <= j < |stepDraws| ==> 0.0 <= stepDraws[j].1 < 1.0
    requires i < 4 && stepDraws[i].0 > 0.3 && stepDraws[i].1 > 0.0
    ensures var step := Progress(agentDraws, stepDraws).flow[i];
      step.data.completion > 0.0 && step.status == Pending && StatusOf(step.data.completion) == InProgress
  {
  }

  /** `POST /api/agents`. `body` is None when the body is not JSON or is JSON `null`. */
  function Post(body: Option<AgentsRequest>, agentDraws: seq<real>, stepDraws: seq<(real, real)>): (r: AgentsResponse)
    requires |agentDraws| == |MarketAnalysis| && forall i :: 0 <= i < |agentDraws| ==> 0.0 <= agentDraws[i] < 1.0
    requires |stepDraws| == |FlowSteps| && forall i :: 0 <= i < |stepDraws| ==> 0.0 <= stepDraws[i].1 < 1.0
    ensures body.None? ==> r == AgentsResponse(500, Failure("Internal server error"))
    ensures body.Some? && body.value.action == Some("start") ==>
      r == (if Start(body.value.kind).Some? then AgentsResponse(200, Success(Start(body.value.kind).value))
            else AgentsResponse(500, Failure("Internal server error")))
    ensures body.Some? && body.value.action == Some("progress") ==>
      r == AgentsResponse(200, Success(Progress(agentDraws, stepDraws)))
    ensures body.Some? && body.value.action != Some("start") && body.value.action != Some("progress") ==>
      r == AgentsResponse(400, Failure("Invalid action"))
    ensures r.reply.Success? <==> r.status == 200
  {
    if body.None? then AgentsResponse(500, Failure("Internal server error"))
    else if body.value.action == Some("start") then
      match Start(body.value.kind)
      case Some(s) => AgentsResponse(200, Success(s))
      case None => AgentsResponse(500, Failure("Internal server error"))
    else if body.value.action == Some("progress") then
      AgentsResponse(200, Success(Progress(agentDraws, stepDraws)))
    else AgentsResponse(400, Failure("Invalid action"))
  }
}
