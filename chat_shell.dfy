/** The message handler of the Bitcoin chatbot (`handle_user_query` in
    main.py), reduced to its decisions: the keyword gate that decides whether
    a price is fetched at all, and the pipeline fetch, analysis, response.
    The price fetch and the clock are parameters: `fetched` is what the
    fetch returned and `now` the formatted time of the analysis. */
module ChatShell {
  import opened Wrappers
  import opened Text
  import opened Advisory
  import opened Responder

  /** The keywords that make a message a crypto question. */
  const CryptoKeywords: seq<string> :=
    ["bitcoin", "btc", "crypto", "price", "buy", "sell", "trading", "market", "analysis", "invest"]

  /** The keyword gate: some keyword occurs in the folded message. */
  function IsCryptoQuestion(message: string): (r: bool)
    ensures r <==> exists w, i: nat :: w in CryptoKeywords && OccursAt(Lower(message), w, i)
  {
    ContainsAny(Lower(message), CryptoKeywords)
  }

  /** What the handler sends back: the static redirect, or a composed answer. */
  datatype Reply = Redirect | Answer(text: string)

  /** A gated-in message gets the response built on the analysis of the
      fetched price; any other message gets the redirect. */
  function HandleQuery(message: string, fetched: Option<real>, now: string): (r: Reply)
    ensures r.Redirect? <==> !IsCryptoQuestion(message)
    ensures r.Answer? ==> Render(Analyze(fetched, now)) <= r.text
    ensures r.Answer? ==> r.text[|Render(Analyze(fetched, now))|..] == Body(Select(message))
  {
    if IsCryptoQuestion(message) then Answer(Respond(message, Render(Analyze(fetched, now))))
    else Redirect
  }

  /** A gated-out message is answered without regard to the price or the
      clock: nothing is fetched for it. */
  lemma GatedOutIgnoresFetch(message: string, f1: Option<real>, n1: string, f2: Option<real>, n2: string)
    requires !IsCryptoQuestion(message)
    ensures HandleQuery(message, f1, n1) == HandleQuery(message, f2, n2) == Redirect
  {
  }

  /** When the fetch fails, the answer is the apology followed by the
      template the message selects, and it carries no report. */
  lemma FailedFetchAnswersWithApology(message: string, now: string)
    requires IsCryptoQuestion(message)
    ensures HandleQuery(message, None, now) == Answer(Apology + Body(Select(message)))
    ensures Analyze(None, now) == Unavailable
  {
  }

  /** The answer starts with the apology exactly when the fetch failed. */
  lemma ApologyOnlyOnFailure(message: string, fetched: Option<real>, now: string)
    requires IsCryptoQuestion(message)
    ensures Apology <= HandleQuery(message, fetched, now).text <==> fetched.None?
  {
    var text := HandleQuery(message, fetched, now).text;
    if fetched.Some? {
      assert Render(Analyze(fetched, now))[0] == '⏰';
      assert text[0] == '⏰';
      assert Apology[0] == '❌';
    }
  }

  /** Every word that selects the price or the trading template is a gate
      keyword. */
  lemma SelectorWordsAreKeywords()
    ensures "price" in CryptoKeywords
    ensures forall w :: w in TradingWords ==> w in CryptoKeywords
  {
  }

  /** A message that would get the price or the trading template always
      passes the gate. */
  lemma {:induction false} GateCoversPriceAndTrading(message: string)
    requires Select(message) == PriceTemplate || Select(message) == TradingTemplate
    ensures IsCryptoQuestion(message)
  {
    var lower := Lower(message);
    if Contains(lower, "price") {
      ContainsAnyWitness(lower, CryptoKeywords, "price");
    } else {
      var k :| 0 <= k < |TradingWords| && Contains(lower, TradingWords[k]);
      SelectorWordsAreKeywords();
      ContainsAnyWitness(lower, CryptoKeywords, TradingWords[k]);
    }
  }

  /** The analysis template is reachable past the gate by "analysis" or
      "market"; a gated-out message that would get it mentions only
      "trend". */
  lemma {:induction false} GatedOutAnalysisOnlyByTrend(message: string)
    requires Select(message) == AnalysisTemplate && !IsCryptoQuestion(message)
    ensures Contains(Lower(message), "trend")
    ensures !Contains(Lower(message), "analysis") && !Contains(Lower(message), "market")
  {
    var lower := Lower(message);
    if Contains(lower, "analysis") {
      ContainsAnyWitness(lower, CryptoKeywords, "analysis");
    }
    if Contains(lower, "market") {
      ContainsAnyWitness(lower, CryptoKeywords, "market");
    }
    var k :| 0 <= k < |AnalysisWords| && Contains(lower, AnalysisWords[k]);
  }

  /** A lower-case text without any of the letters b, c, p, s, a, m, i
      holds no gate keyword: each keyword has one of them. */
  lemma {:induction false} NoKeywordWithout(s: string)
    requires 'b' !in s && 'c' !in s && 'p' !in s && 's' !in s
    requires 'a' !in s && 'm' !in s && 'i' !in s
    ensures forall w :: w in CryptoKeywords ==> !Contains(s, w)
  {
    MissingCharNotContained(s, "bitcoin", 0);
    MissingCharNotContained(s, "btc", 0);
    MissingCharNotContained(s, "crypto", 0);
    MissingCharNotContained(s, "price", 0);
    MissingCharNotContained(s, "buy", 0);
    MissingCharNotContained(s, "sell", 0);
    MissingCharNotContained(s, "trading", 2);
    MissingCharNotContained(s, "market", 0);
    MissingCharNotContained(s, "analysis", 0);
    MissingCharNotContained(s, "invest", 0);
  }

  /** Whether a message passes the gate does not depend on the case of its
      ASCII letters. */
  lemma GateIgnoresCase(a: string, b: string)
    requires SameIgnoringCase(a, b)
    ensures IsCryptoQuestion(a) == IsCryptoQuestion(b)
  {
    SameIgnoringCaseLower(a, b);
  }

  /** Example: "hello there" holds no keyword, so it gets the redirect
      whatever the fetch would have returned. */
  lemma HelloIsRedirected(fetched: Option<real>, now: string)
    ensures HandleQuery("hello there", fetched, now) == Redirect
  {
    HelloNotCrypto();
  }

  /** "hello there" holds no gate keyword. */
  lemma HelloNotCrypto()
    ensures !IsCryptoQuestion("hello there")
  {
    LowerOfLower("hello there");
    NoKeywordWithout("hello there");
  }

  /** "trend" holds no gate keyword. */
  lemma TrendNotCrypto()
    ensures !IsCryptoQuestion("trend")
  {
    LowerOfLower("trend");
    NoKeywordWithout("trend");
  }

  /** "trend" is an analysis word. */
  lemma TrendAsksAnalysis()
    ensures AsksAnalysis("trend")
  {
    LowerOfLower("trend");
    ContainsAt("trend", "trend", 0);
    ContainsAnyWitness("trend", AnalysisWords, "trend");
  }

  /** Example: the message "trend" selects the analysis template but does not
      pass the gate, so it gets the redirect. */
  lemma TrendAloneIsGatedOut(fetched: Option<real>, now: string)
    ensures Select("trend") == AnalysisTemplate
    ensures HandleQuery("trend", fetched, now) == Redirect
  {
    TrendNotCrypto();
    TrendAsksAnalysis();
    if Select("trend") == PriceTemplate || Select("trend") == TradingTemplate {
      GateCoversPriceAndTrading("trend");
    }
  }

  /** "should I buy bitcoin?" mentions buying. */
  lemma BuyQuestionMentionsBuy()
    ensures Contains(Lower("should I buy bitcoin?"), "buy")
  {
    var m := "should I buy bitcoin?";
    assert m[9..12] == "buy";
    ContainsFolded(m, "buy", 9);
  }

  /** "should I buy bitcoin?" has no "p" in any case, so it does not mention
      the price. */
  lemma BuyQuestionLacksPrice()
    ensures !Contains(Lower("should I buy bitcoin?"), "price")
  {
    var m := "should I buy bitcoin?";
    NotInLower(m, 'p');
    MissingCharNotContained(Lower(m), "price", 0);
  }

  /** "should I buy bitcoin?" passes the gate and gets the trading
      template. */
  lemma BuyQuestionMatches()
    ensures IsCryptoQuestion("should I buy bitcoin?")
    ensures Select("should I buy bitcoin?") == TradingTemplate
  {
    BuyQuestionMentionsBuy();
    BuyQuestionLacksPrice();
    ContainsAnyWitness(Lower("should I buy bitcoin?"), TradingWords, "buy");
    ContainsAnyWitness(Lower("should I buy bitcoin?"), CryptoKeywords, "buy");
  }

  /** Example: "should I buy bitcoin?" at a price of 20000 gets the trading
      template on the analysis of that price, which is a strong buy with
      support 19000, resistance 21000 and a next target of 22000. */
  lemma BuyQuestionAt20000(now: string)
    ensures Analyze(Some(20000.0), now) == Report(20000.0, now, StrongBuy, KeyLevels(19000.0, 21000.0, 22000.0))
    ensures HandleQuery("should I buy bitcoin?", Some(20000.0), now)
         == Answer(Render(Analyze(Some(20000.0), now)) + Body(TradingTemplate))
  {
    BuyQuestionMatches();
    PriceOf20000();
  }
}
