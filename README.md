# Bitcoin advisory chatbot — Dafny model

A model of the decision logic of a single-endpoint chatbot that answers
questions about Bitcoin (`main.py`). The chatbot fetches the BTC spot price,
puts it into one of five advisory bands (SELL ZONE, CAUTION ZONE, DCA ZONE,
BUY ZONE, STRONG BUY), computes support, resistance and a next target, and
wraps the resulting analysis in one of four response templates. The template
is chosen by case-insensitive keyword matching on the user's message. A
keyword gate decides whether a price is fetched at all.

Modules:

- `Wrappers` (wrappers.dfy): `Option`, the result of the price fetch (`None` when the fetch fails).
- `Text` (text.dfy): ASCII lower-casing (`str.lower()`), substring containment (`in`) and `any(...)` over a keyword list.
- `Advisory` (advisory.dfy): the band chain, the band texts, the key levels, and `Analyze`, which turns a fetch result into an analysis or the apology.
- `Responder` (responder.dfy): template selection by first-match priority, and the response (analysis text then template text).
- `ChatShell` (chat_shell.dfy): the keyword gate and the per-message handler.

Prices are exact `real`s. The fetch result and the formatted clock reading
are parameters of `Analyze` and `HandleQuery`. Each template is represented
by the bold heading that opens its first line. The report is modelled as a
list of lines joined by line breaks, as the multi-line f-string lays it out.

The code accepts any numeric price, so `Classify`, `Levels` and `Analyze`
are total over the reals; properties that need a positive price say so in
their own `requires`.

## Model

| member | source | states |
|---|---|---|
| Advisory.Classify | main.py:40-59 | the chosen band's range (exclusive floor, inclusive ceiling) contains the price |
| Advisory.ClassifyExactly | main.py:40-59 | a price lies in a band's range if and only if that is the band chosen, so every price is in exactly one band |
| Advisory.BandsDisjoint | main.py:40-59 | no price lies in two bands |
| Advisory.BandsAdjacent | main.py:40-56 | each band's ceiling is the next band's floor, so the five ranges leave no gap |
| Advisory.BoundariesBelongBelow | main.py:40-56 | 70000 is CAUTION ZONE, 50000 is DCA ZONE, 35000 is BUY ZONE and 25000 is STRONG BUY: a boundary belongs to the band below it |
| Advisory.ClassifyMonotone | main.py:40-59 | a higher price never gets a lower band |
| Advisory.ClassifyIsTableScan | main.py:40-59 | the if/elif chain is the same as scanning the threshold table from the top and taking the first bound the price exceeds |
| Advisory.ThresholdsDescending | main.py:40-52 | the table's bounds strictly decrease, and each bound is the floor of the band it selects |
| Advisory.TrendIndicator | main.py:43-59 | every band above the lowest is announced as a "ZONE"; the lowest band is not |
| Advisory.RiskLevel | main.py:42-58 | the risk level warns of the risk "to buy" exactly for the two bands above 50000 |
| Advisory.Advice | main.py:41-57 | the advice opens with a green marker exactly for the bands at or below DCA, and with a red one exactly for the SELL ZONE |
| Advisory.BandTextsDistinct | main.py:42-59 | different bands show different trend indicators and risk levels |
| Advisory.Levels | main.py:62-66 | resistance and support are p/20 above and below the price; the next target is p/10 above below 50000 and p/10 below it from 50000 on |
| Advisory.LevelsBracketPrice | main.py:63-64 | for a positive price, support < price < resistance |
| Advisory.TargetDirection | main.py:65 | for a positive price, the target is above the price exactly when p < 50000 and below it exactly when p >= 50000 |
| Advisory.TargetBreakpointAt50000 | main.py:44-65 | among positive prices at or below the DCA band, 50000 is the only one whose target looks downward |
| Advisory.Analyze | main.py:26-66 | a failed fetch gives the apology and nothing else; a fetched price gives its own band (`Classify`), its own key levels (`Levels`, next target included) and the timestamp |
| Advisory.ReportLayout | main.py:71-76 | the modelled report opens with "⏰"; its lines, in order, are the labelled timestamp, the trend indicator, a blank line, the assessment title, "• **Risk Level:** " and the risk level, "• **Trading Advice:** " and the advice, each a whole line at the position the lines before it leave, and the advice line ends the text |
| Advisory.ReportLayoutContains | main.py:71-76 | the timestamp follows its label, and the risk level and the advice occur in the report |
| Advisory.Render | main.py:28-72 | the analysis text is the apology exactly when there is no report, so a report never reads as the apology |
| Advisory.RenderShowsReport | main.py:71-76 | a report's text consists of these lines in order, each whole at its position: the labelled timestamp, its band's trend indicator, a blank line, the assessment title, the labelled risk level of its band and the labelled advice of its band; so it contains the risk level and the advice |
| Advisory.TextIsApologyIffFailed | main.py:26-29 | the analysis text is the apology exactly when the fetch failed |
| Advisory.PriceOf80000 | main.py:40-66 | 80000 is SELL ZONE with "HIGH RISK to buy", support 76000, resistance 84000 and target 72000 |
| Advisory.PriceOf20000 | main.py:56-65 | 20000 is STRONG BUY with support 19000, resistance 21000 and target 22000 |
| Text.LowerChar | main.py:103 | ASCII upper-case letters become lower case and every other character is left as it is |
| Text.Lower | main.py:103 | the result has no upper-case ASCII letter and equals the input up to letter case |
| Text.LowerIdempotent | main.py:103 | lower-casing twice is the same as lower-casing once |
| Text.LineOfJoin | main.py:68-98 | in lines joined by line breaks, each line stands whole at the position the lines before it and their breaks leave |
| Text.Contains | main.py:106 | the left-to-right scan finds a word exactly when it occurs at some position of the text |
| Text.ContainsAny | main.py:114 | the word-by-word test holds exactly when some word of the list occurs in the text |
| Responder.Select | main.py:103-165 | price template if and only if "price" occurs; trading if and only if there is no "price" and a trading word; analysis if and only if neither and an analysis word; general if and only if none of these |
| Responder.SelectIgnoresCase | main.py:103 | two messages that differ only in letter case select the same template |
| Responder.SelectOfLower | main.py:103 | lower-casing the message first does not change the template |
| Responder.PriceInAnyCaseWins | main.py:103-106 | "price" in any letter case anywhere selects the price template, whatever other words appear |
| Responder.UpperCasePriceBeatsBuy | main.py:103-114 | "what's the PRICE, should I buy?" selects the price template, not the trading template |
| Responder.Respond | main.py:100-190 | the response starts with the analysis text verbatim and continues with the selected template's text |
| Responder.Body | main.py:107-168 | each template's text opens with the blank line that separates it from the analysis |
| Responder.BodyInjective | main.py:107-168 | the four templates have different texts |
| Responder.RespondDeterminesParts | main.py:100-190 | two equal responses over analysis texts of equal length carry the same analysis text and the same template |
| ChatShell.IsCryptoQuestion | main.py:233-235 | the gate passes exactly when one of the ten keywords occurs at some position of the lower-cased message |
| ChatShell.HandleQuery | main.py:233-268 | the redirect is sent exactly when no gate keyword occurs; otherwise the answer is the analysis of the fetch result followed by the selected template |
| ChatShell.GatedOutIgnoresFetch | main.py:235-268 | the reply to a gated-out message does not depend on the fetch result or the clock, so no fetch is needed |
| ChatShell.FailedFetchAnswersWithApology | main.py:241-248 | for a gated-in message with a failed fetch, the answer is the apology followed by the selected template, with no report |
| ChatShell.ApologyOnlyOnFailure | main.py:26-29 | the answer to a gated-in message starts with the apology exactly when the fetch failed |
| ChatShell.SelectorWordsAreKeywords | main.py:233 | "price" and every trading word are gate keywords |
| ChatShell.GateCoversPriceAndTrading | main.py:233-235 | a message that would get the price or trading template always passes the gate |
| ChatShell.GatedOutAnalysisOnlyByTrend | main.py:138-235 | a gated-out message that would get the analysis template contains "trend" but neither "analysis" nor "market" |
| ChatShell.TrendAloneIsGatedOut | main.py:233-235 | the message "trend" would select the analysis template but gets the redirect |
| ChatShell.GateIgnoresCase | main.py:235 | the gate does not depend on letter case |
| ChatShell.HelloIsRedirected | main.py:250-268 | "hello there" gets the redirect whatever the fetch would return |
| ChatShell.BuyQuestionMatches | main.py:114-235 | "should I buy bitcoin?" passes the gate and selects the trading template |
| ChatShell.BuyQuestionAt20000 | main.py:241-244 | the analysis of a fetched 20000 is a STRONG BUY report with support 19000, resistance 21000 and target 22000, and "should I buy bitcoin?" gets that analysis's text followed by the trading template |

## Left out

- `get_crypto_data` (main.py:12-22): the HTTP request, timeout, status check and JSON parsing are foreign I/O. Its result is the `Option<real>` parameter `fetched`, and its error logging is not modelled.
- `datetime.now()` and `strftime` (main.py:32-33): wall-clock time. The formatted timestamp is the opaque `now` parameter.
- Number rendering with `:,.2f` and `:,.0f` (main.py:63-65, 70): float rounding and thousands separators. Levels are exact reals.
- Advisory.Render: leaves out the report's heading and price line (main.py:68-70) and everything after the advice line (main.py:77-98), because they are static text or rendered numbers. In the model the advice line ends the report. The lines from main.py:71-76 are kept, in order.
- Advisory.Levels: uses exact real arithmetic, not IEEE doubles. Python's `p * 1.05` can differ from the exact product in the last bits, which the 0-decimal rendering hides.
- The static parts of the analysis text (market context, strategies, disclaimer; main.py:68-98) and the template copy text (main.py:107-190): literal text with no logic. Each template is represented by its bold heading.
- The chat transport (main.py:192-283): the welcome message on chat start, the interim "fetching" message and its later update, and the `except` branch that turns an unexpected error into an error message. These are async UI plumbing, and the model has no failure other than the fetch.
- Python's Unicode `str.lower()` is modelled only on ASCII letters. Other characters are left unchanged.
- `load_dotenv` and `cl.run` (main.py:9, 286-291): process configuration and hosting.
