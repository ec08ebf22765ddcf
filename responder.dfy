/** The response selector of the Bitcoin chatbot (`generate_crypto_response`
    in main.py): the message is folded to lower case and tested for keyword
    categories in a fixed priority order; the chosen template is appended to
    the analysis text. Each template is represented by its heading line, not
    by its full copy text. */
module Responder {
  import opened Text

  /** The four response templates, listed in priority order. */
  datatype Template = PriceTemplate | TradingTemplate | AnalysisTemplate | GeneralTemplate

  /** Words that select the trading template. */
  const TradingWords: seq<string> := ["buy", "sell", "invest", "trading"]

  /** Words that select the market-analysis template. */
  const AnalysisWords: seq<string> := ["analysis", "market", "trend"]

  /** The message mentions the price. */
  predicate AsksPrice(question: string) {
    Contains(Lower(question), "price")
  }

  /** The message mentions buying, selling, investing or trading. */
  predicate AsksTrading(question: string) {
    ContainsAny(Lower(question), TradingWords)
  }

  /** The message mentions analysis, the market or the trend. */
  predicate AsksAnalysis(question: string) {
    ContainsAny(Lower(question), AnalysisWords)
  }

  /** First matching category wins: each template is chosen exactly when
      its category matches and no earlier category (price, then trading,
      then analysis) does; the general template when none matches. */
  function Select(question: string): (t: Template)
    ensures t == PriceTemplate <==> AsksPrice(question)
    ensures t == TradingTemplate <==> !AsksPrice(question) && AsksTrading(question)
    ensures t == AnalysisTemplate <==>
      !AsksPrice(question) && !AsksTrading(question) && AsksAnalysis(question)
    ensures t == GeneralTemplate <==>
      !AsksPrice(question) && !AsksTrading(question) && !AsksAnalysis(question)
  {
    var lower := Lower(question);
    if Contains(lower, "price") then PriceTemplate
    else if ContainsAny(lower, TradingWords) then TradingTemplate
    else if ContainsAny(lower, AnalysisWords) then AnalysisTemplate
    else GeneralTemplate
  }

  /** Matching ignores the case of ASCII letters. */
  lemma SelectIgnoresCase(a: string, b: string)
    requires SameIgnoringCase(a, b)
    ensures Select(a) == Select(b)
  {
    SameIgnoringCaseLower(a, b);
  }

  /** Folding the message first changes nothing. */
  lemma SelectOfLower(question: string)
    ensures Select(Lower(question)) == Select(question)
  {
    LowerIdempotent(question);
  }

  /** "price" written in any case anywhere in the message selects the price
      template, whatever trading or analysis words the message also has. */
  lemma PriceInAnyCaseWins(question: string, w: string, i: nat)
    requires OccursAt(question, w, i) && Lower(w) == "price"
    ensures Select(question) == PriceTemplate
  {
    OccursFolded(question, w, i);
    ContainsAt(Lower(question), "price", i);
  }

  /** Example: "what's the PRICE, should I buy?" mentions a trading word but
      still gets the price template. */
  lemma UpperCasePriceBeatsBuy()
    ensures Select("what's the PRICE, should I buy?") == PriceTemplate
  {
    var q := "what's the PRICE, should I buy?";
    var w := "PRICE";
    assert q[11..16] == w;
    assert Lower(w) == "price" by {
      assert Lower(w)[0] == 'p' && Lower(w)[1] == 'r' && Lower(w)[2] == 'i';
      assert Lower(w)[3] == 'c' && Lower(w)[4] == 'e';
    }
    PriceInAnyCaseWins(q, w, 11);
  }

  /** The text that stands for each template: a blank line that separates
      it from the analysis, then the template's bold heading. */
  function Body(t: Template): (r: string)
    ensures |r| > 2 && r[..2] == "\n\n"
  {
    "\n\n" + Heading(t)
  }

  /** The bold heading that opens each template's first line. */
  function Heading(t: Template): string {
    match t
    case PriceTemplate => "**You asked about Bitcoin's price**"
    case TradingTemplate => "**Trading & Investment Analysis:**"
    case AnalysisTemplate => "**Detailed Market Analysis:**"
    case GeneralTemplate => "**General Crypto Information:**"
  }

  /** The reply to a question: the analysis text verbatim, then the chosen
      template's text. */
  function Respond(question: string, cryptoData: string): (r: string)
    ensures |r| > |cryptoData| && r[..|cryptoData|] == cryptoData
    ensures r[|cryptoData|..] == Body(Select(question))
  {
    cryptoData + Body(Select(question))
  }

  /** Different templates have different texts. */
  lemma BodyInjective(t: Template, u: Template)
    requires Body(t) == Body(u)
    ensures t == u
  {
    assert |Body(t)| == |Body(u)|;
  }

  /** The reply determines both the template chosen and the analysis text it
      carries. */
  lemma RespondDeterminesParts(q1: string, d1: string, q2: string, d2: string)
    requires |d1| == |d2| && Respond(q1, d1) == Respond(q2, d2)
    ensures d1 == d2 && Select(q1) == Select(q2)
  {
    var r := Respond(q1, d1);
    assert d1 == r[..|d1|] == d2;
    BodyInjective(Select(q1), Select(q2));
  }
}
