/**
 * The mock chat route (`POST /api/chat`): a message is validated, classified
 * into a topic bucket by keyword, and answered either with the bucket's canned
 * analysis or with one of three general replies. The simulated processing
 * delay, `Math.random` and `Date.now` are not modelled as effects: the random
 * draw used to pick a general reply and the pieces of a generated
 * conversation id are parameters.
 */
module Chat {
  import opened Util
  import opened Strings

  // ---------------------------------------------------------------------
  // Data model

  datatype QueryType = Bitcoin | Ethereum | Market | General

  datatype Scalar = Num(n: real) | Text(s: string)

  datatype Action = Buy | Sell | Hold

  datatype Recommendation = Recommendation(
    action: Action, targetPrice: int, stopLoss: int, confidence: int)

  /** The `analysis` object of a reply; JSON objects are kept as ordered key/value lists. */
  datatype Analysis = Analysis(
    confidence: int,
    sources: seq<string>,
    technicalIndicators: seq<(string, Scalar)>,
    valuationModels: seq<(string, real)>,
    riskMetrics: seq<(string, string)>,
    recommendation: Recommendation)

  datatype MockResponse = MockResponse(response: string, analysis: Analysis)

  /** The `message` field of a request body. */
  datatype MessageField =
    | Absent            // the field is missing (undefined)
    | Str(s: string)    // a JSON string
    | NotAString        // null, a number, a boolean, an array or an object

  /**
   * A request body that parsed as a JSON object. `conversationId` is None
   * when the field is missing or null (both are replaced by `??`).
   */
  datatype ChatRequest = ChatRequest(message: MessageField, conversationId: Option<string>)

  datatype ChatBody =
    | Failure(error: string)                                              // success: false
    | Reply(response: string, analysis: Option<Analysis>, conversationId: string)  // success: true

  datatype ChatResponse = ChatResponse(status: int, body: ChatBody)

  // ---------------------------------------------------------------------
  // Static data

  const BitcoinMock := MockResponse(
    "Based on my comprehensive analysis using multiple valuation models and current market data, Bitcoin appears to be fairly valued at current levels with a target range of $38K-$52K. The technical indicators suggest continued bullish momentum, while on-chain metrics show healthy network activity.",
    Analysis(
      78,
      ["CoinGecko API", "DeFiPulse", "On-chain Analytics", "TradingView"],
      [("RSI", Num(65.2)), ("MACD", Text("Bullish")), ("Support Level", Text("$42,000")),
       ("Resistance Level", Text("$46,000")), ("Volume Trend", Text("Increasing"))],
      [("Stock-to-Flow", 52400.0), ("NVT Ratio", 48200.0), ("Metcalfe's Law", 45800.0),
       ("Rainbow Chart", 44500.0)],
      [("Volatility", "Medium (65%)"), ("Liquidity", "Low Risk (85%)"),
       ("Regulatory", "Medium (55%)"), ("Market Sentiment", "Bullish (72%)")],
      Recommendation(Buy, 52000, 40000, 78)))

  const EthereumMock := MockResponse(
    "Ethereum shows strong fundamentals with the transition to Proof of Stake and growing DeFi ecosystem. Current price levels suggest potential upside with key resistance at $2,800. The merge has reduced energy consumption by 99.95% and created deflationary pressure.",
    Analysis(
      82,
      ["Etherscan", "DeFiPulse", "Ethereum Foundation", "L2Beat"],
      [("RSI", Num(58.7)), ("MACD", Text("Neutral")), ("Support Level", Text("$2,200")),
       ("Resistance Level", Text("$2,800")), ("Staking APR", Text("4.2%"))],
      [("P/E Ratio", 2650.0), ("NVT Ratio", 2580.0), ("TVL Model", 2720.0),
       ("Burn Rate Model", 2890.0)],
      [("Volatility", "High (78%)"), ("Liquidity", "Low Risk (88%)"),
       ("Regulatory", "Low Risk (25%)"), ("Smart Contract Risk", "Medium (45%)")],
      Recommendation(Buy, 2800, 2100, 82)))

  const MarketMock := MockResponse(
    "The overall crypto market is showing signs of consolidation with increasing institutional adoption. Key metrics suggest we're in a healthy accumulation phase with strong on-chain fundamentals supporting higher prices in the medium term.",
    Analysis(
      74,
      ["CoinMarketCap", "CoinGecko", "Glassnode", "IntoTheBlock"],
      [("Fear & Greed Index", Num(67.0)), ("Market Cap", Text("$1.2T")),
       ("Dominance BTC", Text("42.5%")), ("Dominance ETH", Text("18.3%")),
       ("Active Addresses", Text("950K"))],
      [("Total Market Cap", 1200000000000.0), ("Realized Cap", 950000000000.0),
       ("MVRV Ratio", 1.26), ("NVT Ratio", 45.2)],
      [("Volatility", "Medium (62%)"), ("Liquidity", "Medium Risk (58%)"),
       ("Regulatory", "Medium (52%)"), ("Institutional Flow", "Positive (78%)")],
      Recommendation(Hold, 45000, 38000, 74)))

  /** The canned analysis of each non-general bucket. */
  function MockFor(q: QueryType): MockResponse
    requires q != General
  {
    match q
    case Bitcoin => BitcoinMock
    case Ethereum => EthereumMock
    case Market => MarketMock
  }

  const GeneralReplies: seq<string> := [
    "I can help you analyze various cryptocurrencies and market conditions. Try asking about Bitcoin, Ethereum, or general market trends for detailed analysis.",
    "For comprehensive crypto analysis, please specify which cryptocurrency or market aspect you'd like me to examine. I can provide technical analysis, valuation models, and risk assessments.",
    "I specialize in cryptocurrency valuation and market analysis. What specific crypto asset or market trend would you like me to analyze?"
  ]

  /** Every keyword the classifier looks for. */
  const Keywords: seq<string> := ["bitcoin", "btc", "ethereum", "eth", "market", "crypto"]

  // ---------------------------------------------------------------------
  // Classification

  /**
   * `detectQueryType`: lower-case the message, then test the bitcoin, the
   * ethereum and the market keyword pairs in that order; the first pair with
   * a substring hit decides.
   */
  function DetectQueryType(message: string): (q: QueryType)
    ensures q == General <==> forall k :: k in Keywords ==> !Contains(ToLower(message), k)
    ensures q == Bitcoin <==> Contains(ToLower(message), "bitcoin") || Contains(ToLower(message), "btc")
  {
    var lower := ToLower(message);
    assert "bitcoin" in Keywords && "btc" in Keywords && "ethereum" in Keywords;
    assert "eth" in Keywords && "market" in Keywords && "crypto" in Keywords;
    if Contains(lower, "bitcoin") || Contains(lower, "btc") then Bitcoin
    else if Contains(lower, "ethereum") || Contains(lower, "eth") then Ethereum
    else if Contains(lower, "market") || Contains(lower, "crypto") then Market
    else General
  }

  /** Classification does not depend on letter case. */
  lemma DetectIgnoresCase(message: string)
    ensures DetectQueryType(message) == DetectQueryType(ToLower(message))
  {
    LowerOfLower(ToLower(message));
  }

  /**
   * The ethereum bucket is chosen exactly when no bitcoin keyword occurs and
   * "eth" occurs: "ethereum" adds nothing, since it starts with "eth".
   */
  lemma EthereumExactly(message: string)
    ensures var lower := ToLower(message);
      DetectQueryType(message) == Ethereum
      <==> !Contains(lower, "bitcoin") && !Contains(lower, "btc") && Contains(lower, "eth")
  {
    var lower := ToLower(message);
    if Contains(lower, "ethereum") {
      ContainsPrefixOf(lower, "ethereum", "eth");
    }
  }

  /** The market bucket is chosen exactly when only market keywords occur. */
  lemma MarketExactly(message: string)
    ensures var lower := ToLower(message);
      DetectQueryType(message) == Market
      <==> !Contains(lower, "bitcoin") && !Contains(lower, "btc") && !Contains(lower, "eth")
           && (Contains(lower, "market") || Contains(lower, "crypto"))
  {
    var lower := ToLower(message);
    if Contains(lower, "ethereum") {
      ContainsPrefixOf(lower, "ethereum", "eth");
    }
  }

  /** A bitcoin keyword wins over every other keyword: "ETH vs BTC" is a bitcoin query. */
  lemma EthVsBtc()
    ensures DetectQueryType("ETH vs BTC") == Bitcoin
  {
    var lower := ToLower("ETH vs BTC");
    assert lower[7..10] == "btc";
    assert OccursAt(lower, "btc", 7);
  }

  /** Keywords match anywhere, even inside words: "something" holds "eth". */
  lemma SomethingIsEthereum()
    ensures DetectQueryType("something") == Ethereum
  {
    var m := "something";
    WithoutLetterB(m);
    assert IsLower(m);
    LowerOfLower(m);
    assert m[3..6] == "eth" by {
      assert m[3..6][0] == 'e' && m[3..6][1] == 't' && m[3..6][2] == 'h';
    }
    assert OccursAt(m, "eth", 3);
    EthereumExactly(m);
  }

  /** A string without the letter 'b' holds neither bitcoin keyword. */
  lemma WithoutLetterB(m: string)
    requires forall i :: 0 <= i < |m| ==> m[i] != 'b'
    ensures !Contains(m, "bitcoin") && !Contains(m, "btc")
  {
    forall i | 0 <= i <= |m| - 3 ensures !OccursAt(m, "btc", i) {
      assert m[i..i + 3][0] == m[i];
    }
    forall i | 0 <= i <= |m| - 7 ensures !OccursAt(m, "bitcoin", i) {
      assert m[i..i + 7][0] == m[i];
    }
  }

  // ---------------------------------------------------------------------
  // Replies

  /**
   * `generateConversationId`: "conv_", then at most nine base-36 digits of
   * the random draw (`toString(36).substr(2, 9)`), then the millisecond
   * clock in base 36. `randomDigits` stands for the digits of the draw after
   * its leading "0.".
   */
  function NewConversationId(randomDigits: string, nowMs: nat): (id: string)
    ensures StartsWith(id, "conv_")
    ensures AllDigits(randomDigits, 36) ==> AllDigits(id[5..], 36)
    ensures |id| <= 5 + 9 + |Render(nowMs, 36)|
  {
    var r := if |randomDigits| <= 9 then randomDigits else randomDigits[..9];
    "conv_" + r + Render(nowMs, 36)
  }

  /**
   * The parts of a generated id can be read back: after "conv_" come the
   * first (at most nine) random digits, and the rest is the clock in base 36.
   */
  lemma ConversationIdClock(randomDigits: string, nowMs: nat)
    ensures var id := NewConversationId(randomDigits, nowMs);
      var k := 5 + MinInt(|randomDigits|, 9);
      k <= |id| && id[5..k] == randomDigits[..k - 5]
      && AllDigits(id[k..], 36) && Parse(id[k..], 36) == nowMs
  {
    var id := NewConversationId(randomDigits, nowMs);
    var k := 5 + MinInt(|randomDigits|, 9);
    assert id[k..] == Render(nowMs, 36);
    ParseRender(nowMs, 36);
  }

  /**
   * `generateGeneralResponse`: the reply at index `floor(draw * 3)` with a
   * freshly generated id and no analysis.
   */
  function GeneralResponse(draw: real, randomDigits: string, nowMs: nat): (b: ChatBody)
    requires 0.0 <= draw < 1.0
    ensures b.Reply? && b.analysis.None? && b.response in GeneralReplies
    ensures b.response == GeneralReplies[(draw * 3.0).Floor]
    ensures StartsWith(b.conversationId, "conv_")
  {
    Reply(GeneralReplies[(draw * 3.0).Floor], None, NewConversationId(randomDigits, nowMs))
  }

  /** Which general reply a draw selects: thirds of [0, 1). */
  lemma GeneralReplyChoice(draw: real)
    requires 0.0 <= draw < 1.0
    ensures (draw * 3.0).Floor == 0 <==> draw < 1.0 / 3.0
    ensures (draw * 3.0).Floor == 2 <==> draw >= 2.0 / 3.0
  {
  }

  /**
   * `POST /api/chat`. `body` is None when the request body is not JSON or is
   * JSON `null` (reading or destructuring it throws, and the handler answers
   * 500). `draw` is the `Math.random()` value a general reply is picked with;
   * `randomDigits` and `nowMs` feed a generated conversation id.
   */
  function Post(body: Option<ChatRequest>, draw: real, randomDigits: string, nowMs: nat): (r: ChatResponse)
    requires 0.0 <= draw < 1.0
    ensures body.None? ==> r == ChatResponse(500, Failure("Internal server error"))
    ensures body.Some? && !(body.value.message.Str? && body.value.message.s != "")
      ==> r == ChatResponse(400, Failure("Invalid message"))
    ensures r.body.Reply? <==> body.Some? && body.value.message.Str? && body.value.message.s != ""
    ensures r.body.Reply? ==> r.status == 200
    ensures r.body.Reply? ==>
      var q := DetectQueryType(body.value.message.s);
      && (q == General ==> r.body == GeneralResponse(draw, randomDigits, nowMs))
      && (q != General ==>
            && r.body.response == MockFor(q).response
            && r.body.analysis == Some(MockFor(q).analysis)
            && r.body.conversationId ==
                 (if body.value.conversationId.Some? then body.value.conversationId.value
                  else NewConversationId(randomDigits, nowMs)))
  {
    if body.None? then ChatResponse(500, Failure("Internal server error"))
    else
      var req := body.value;
      if !req.message.Str? || req.message.s == "" then ChatResponse(400, Failure("Invalid message"))
      else
        var q := DetectQueryType(req.message.s);
        if q == General then ChatResponse(200, GeneralResponse(draw, randomDigits, nowMs))
        else
          var mock := MockFor(q);
          var id := if req.conversationId.Some? then req.conversationId.value
                    else NewConversationId(randomDigits, nowMs);
          ChatResponse(200, Reply(mock.response, Some(mock.analysis), id))
  }

  /**
   * A caller-supplied conversation id is echoed on analysis replies; general
   * replies always carry a freshly generated id instead, whatever was supplied.
   */
  lemma ConversationIdEcho(message: string, id: string, draw: real, randomDigits: string, nowMs: nat)
    requires message != "" && 0.0 <= draw < 1.0
    ensures var r := Post(Some(ChatRequest(Str(message), Some(id))), draw, randomDigits, nowMs);
      r.body.Reply?
      && (DetectQueryType(message) != General ==> r.body.conversationId == id)
      && (DetectQueryType(message) == General ==> r.body.conversationId == NewConversationId(randomDigits, nowMs))
  {
  }
}
