# Real-estate assistant: query router and preference extractor

This project models the two decision components of the WhatsApp integration of a
real-estate assistant (`app/api/whatsapp_integration.py`). It also proves properties of both.

- **The query router** (`process_property_query`) does the following:
  - builds a history string from the last five earlier turns;
  - sets four keyword flags (price, location, availability, visit) on the lower-cased message;
  - chooses one of three outcomes:
    - a hand-off to a human agent for visit requests;
    - the context service's answer, when that service used indexed material;
    - one of three canned replies: price, location, or a generic one with an optional line of suggested topics.
- **The preference extractor** (`analyze_client_preferences`) fills a `ClientPreferences` record field by field:
  - a budget range from the first of three price patterns that matches;
  - the zones named, from a fixed list;
  - a property type and an urgency, each from a first-match-wins chain;
  - bedroom and bathroom counts from a leftmost "digits, spaces, keyword" search;
  - amenity labels from a keyword table.

The model is split into these files:

- **wrappers.dfy** holds `Option`.
- **text.dfy** holds the string tests Python performs:
  - `w in s` as `Contains`;
  - `any(...)` as `ContainsAny`;
  - `str.lower`;
  - `"\n".join` and its inverse split.
- **patterns.dfy** holds the regular expressions:
  - hand-written leftmost matchers for the expressions on lines 170-172, 203 and 208;
  - lemmas proving that each greedy scan matches exactly where its expression matches and captures the group the expression captures (`AmountWithUnitExact`, `LongAmountExact`, `BetweenFound` with `BetweenForced`, `CountBeforeExact`);
  - the decimal values of the captured groups.
- **preferences.dfy** holds the extractor:
  - the `ClientPreferences` class, which the method `AnalyzeClientPreferences` fills in place;
  - the function `ExtractPreferences`, which specifies that method.
- **router.dfy** holds the router:
  - the `PropertyResponse` record;
  - the function `Respond`, which specifies the routing;
  - the method `ProcessPropertyQuery`, which follows the endpoint's statements.
  
  The three services it calls are oracles:
  - the context service `ask_mistral_with_context`;
  - the title suggester `get_suggested_titles`;
  - the topic formatter `format_topics_inline`.
  
  Each service's reply for the request is a parameter: either a returned value or a raised error. The outcome records which calls were made, in order, with their arguments.
- **scenarios.dfy** holds concrete messages worked through the general lemmas.

## Model

| member | source | states |
|---|---|---|
| Router.RouteSeesLastFive | app/api/whatsapp_integration.py:71 | a request is handled exactly as it would be with only its last five earlier turns |
| Router.Recent | app/api/whatsapp_integration.py:72 | `conversation_history[-5:]` keeps min(5, n) turns, and they are the last ones |
| Router.HistoryLinesShape | app/api/whatsapp_integration.py:72-74 | each turn contributes exactly a `Cliente: q` line and an `Asistente: a` line, in order; a missing key is read as the empty string |
| Router.BuildHistory | app/api/whatsapp_integration.py:69-75 | the appending loop and the join produce exactly the history text |
| Router.HistoryText | app/api/whatsapp_integration.py:69-75 | defines the history string: empty without earlier turns, else the lines of the last five turns joined with newlines; its properties are `HistoryTextSpec` and `RouteSeesLastFive` |
| Router.HistoryTextSpec | app/api/whatsapp_integration.py:69-75 | the history is empty iff there are no earlier turns; otherwise, when no message holds a line break, it splits on newlines into 2·min(5, n) lines, customer then assistant per retained turn, oldest first |
| Router.Respond | app/api/whatsapp_integration.py:81-155 | the routing, in seven claims: (1) no service is called iff a visit word occurs; (2) a visit word gives the visit reply with `requires_human` and `{intent: visit_request}`, whatever other flags are set; (3) otherwise the first call is the context service, with the message as written and the history; (4) `requires_human` holds iff it is a visit request; (5) every reply has `success` set; (6) every reply has no properties mentioned; (7) a failure is status 500 and only arises when a service raised; (8) conversely, when the context service raises, or the suggester raises after the context service answered, the request fails with status 500 and that service's message, and no later service is called |
| Router.DetectIntents | app/api/whatsapp_integration.py:81-84 | defines the four flags: each is set iff one of its five words occurs as a substring of the lower-cased message; `AvailabilityIgnored` and `InvestmentReadsAsVisit` are about it |
| Router.Route | app/api/whatsapp_integration.py:59-155 | defines the endpoint's outcome as `Respond` on the history built from the turns; `ProcessPropertyQuery` is proved equal to it |
| Router.ContextUsed | app/api/whatsapp_integration.py:101-151 | with the context used, the reply is the service's answer verbatim (empty if absent), with the suggested titles and `{used_context: true}`; the calls are the context service then the suggester, asked for 3 titles |
| Router.TemplatePrecedence | app/api/whatsapp_integration.py:107-142 | with the context unused, the price template is used if a price word occurs; otherwise the location template if a location word occurs; otherwise the generic reply. The topic formatter is called only when there are suggested titles, and its failure alone fails the request |
| Router.GenericMessage | app/api/whatsapp_integration.py:124-134 | defines the generic reply: the capabilities text, then the lead-in and the topics line only when that line is non-empty, then the closing question; its property is `GenericMessageSpec` |
| Router.GenericMessageSpec | app/api/whatsapp_integration.py:124-134 | the generic reply contains "También puedo informarte sobre: " iff the topics line is non-empty, and then it contains that line |
| Router.GenericTopics | app/api/whatsapp_integration.py:123-142 | on the generic path, the reply carries `{used_context: false}`. It offers further topics iff there are suggested titles and the formatter returned a non-empty line |
| Router.FixedTextLacksCapitalT | app/api/whatsapp_integration.py:125-134 | the fixed text of the generic reply cannot contain the topics lead-in on its own |
| Router.AvailabilityIgnored | app/api/whatsapp_integration.py:83-151 | the availability flag never affects how a request is handled |
| Router.AssembleGenericMessage | app/api/whatsapp_integration.py:125-134 | appending the lead-in and the topics line (only when it is non-empty) and then the closing question to the capabilities text gives exactly the generic reply |
| Router.ProcessPropertyQuery | app/api/whatsapp_integration.py:59-155 | the endpoint's statements (early returns, `response_text +=` assembly) give exactly the outcome `Respond` specifies for the history built from the turns |
| Text.Contains | app/api/whatsapp_integration.py:193 | defines Python's `w in s`: `w` occurs at some position of `s` |
| Text.ContainsAny | app/api/whatsapp_integration.py:81-84 | defines `any(word in s for word in words)` |
| Text.Lower | app/api/whatsapp_integration.py:78 | `str.lower` keeps the length of the message |
| Text.SplitJoin | app/api/whatsapp_integration.py:75 | joining lines that hold no newline with `"\n"` can be split back into the same lines |
| Text.ContainsInside | app/api/whatsapp_integration.py:81-84 | a keyword found inside a longer word that occurs is found too (keyword tests are substring tests) |
| Text.LowerIdempotent | app/api/whatsapp_integration.py:164 | lower-casing twice is lower-casing once |
| Patterns.DigitRunEnd | app/api/whatsapp_integration.py:170-172 | greedy `\d*`: every character up to the end is a digit, and the next is not |
| Patterns.SpaceRunEnd | app/api/whatsapp_integration.py:170-172 | greedy `\s*`: every character up to the end is white space, and the next is not |
| Patterns.NumberEnd | app/api/whatsapp_integration.py:170-172 | the greedy scan from a digit yields a token of the form `\d+\.?\d*` |
| Patterns.NumberTokenEnd | app/api/whatsapp_integration.py:170-172 | no `\d+\.?\d*` token from the same digit ends past the greedy end; when the next character can neither extend the token nor be a point, it ends exactly there |
| Patterns.MatchesAt | app/api/whatsapp_integration.py:169-173 | defines where each expression matches (the three price expressions, and the count expressions of lines 203 and 208); the `…Exact`, `BetweenFound` and `BetweenForced` lemmas tie it to the expressions |
| Patterns.Search | app/api/whatsapp_integration.py:176 | a position the search returns is in the text and matches |
| Patterns.LeftmostSpec | app/api/whatsapp_integration.py:203-208 | the search finds nothing iff no position matches; otherwise no earlier position matches (`re.search` / the first item of `re.findall`) |
| Patterns.DigitsValue | app/api/whatsapp_integration.py:205 | `int()` of n decimal digits is below 10^n |
| Patterns.IntegerAt | app/api/whatsapp_integration.py:210 | defines `int(group(1))` as the value of the whole digit run at the match (also `float` of the long amount at line 184); `RoomCountSpec` and `LongAmountDecides` state what it gives |
| Patterns.NumberValue | app/api/whatsapp_integration.py:180-184 | `float` of the token is at least the value of its integer part, which is non-negative |
| Patterns.AmountWithUnitExact | app/api/whatsapp_integration.py:170 | a match of `(\d+\.?\d*)\s*` followed by `mil` or `k` at a position exists iff the greedy scan finds one, and its group is the greedy token |
| Patterns.LongAmountExact | app/api/whatsapp_integration.py:171 | `(\d{4,})` matches at a position iff the scan does, and the group the greedy engine captures is the longest span of four or more digits, the whole digit run |
| Patterns.CountBeforeExact | app/api/whatsapp_integration.py:203-208 | a match of `(\d+)\s*(?:words)` at a position exists iff the greedy scan finds one, and its group is the whole digit run |
| Patterns.BetweenFound | app/api/whatsapp_integration.py:172 | a match of the `entre … y …` scanner is a match of the regular expression, with the scanned groups |
| Patterns.BetweenForced | app/api/whatsapp_integration.py:172 | every match of `entre\s*(N)\s*y\s*(M)` is found by the scanner, at the same positions |
| Preferences.Scale | app/api/whatsapp_integration.py:180-184 | defines the factor: 1000 when "mil" or "k" occurs anywhere in the text, else 1; `AnyLetterKScales` and `AmountWithUnitDecides` are about it |
| Preferences.RangeFor | app/api/whatsapp_integration.py:178-185 | defines the range one match reads, amounts as written: the ±20% band around a single amount, or the two numbers of `entre N y M` in order |
| Preferences.FirstBudget | app/api/whatsapp_integration.py:175-186 | defines the reading of the first pattern that matches anywhere, at its leftmost match; `FirstPatternDecides` and `BudgetAbsent` are about it |
| Preferences.Budget | app/api/whatsapp_integration.py:175-186 | defines the budget as that reading with both ends multiplied by the factor; the `…Decides` lemmas give its value case by case |
| Preferences.AnyLetterKScales | app/api/whatsapp_integration.py:180-184 | a single letter k anywhere, even inside a word, sets the factor to 1000, and the budget is then the pattern reading with both ends multiplied by 1000 |
| Preferences.BudgetAbsent | app/api/whatsapp_integration.py:175-186 | no budget is set iff none of the three patterns matches anywhere |
| Preferences.ExtractBudget | app/api/whatsapp_integration.py:175-186 | the loop over the patterns, with its `break`, yields the budget of the first pattern that matches |
| Preferences.FirstPatternDecides | app/api/whatsapp_integration.py:175-177 | patterns that found nothing are skipped without effect |
| Patterns.SearchFinds | app/api/whatsapp_integration.py:176 | a matching position with no earlier match is what the search returns |
| Preferences.AmountWithUnitDecides | app/api/whatsapp_integration.py:170-186 | a match of the first pattern decides the budget: the scale is 1000 and the range is [800·x, 1200·x] around the leftmost amount x |
| Preferences.LongAmountDecides | app/api/whatsapp_integration.py:171-186 | when the first pattern never matches, a run of 4 or more digits decides the budget: [0.8·s·x, 1.2·s·x], with 0 ≤ min ≤ max |
| Preferences.BetweenDecides | app/api/whatsapp_integration.py:172-182 | when neither single-amount pattern matches, `entre N y M` gives [s·N, s·M] with the bounds as written, where s = 1000 iff "mil" or "k" occurs |
| Preferences.UnorderedOnlyFromBetween | app/api/whatsapp_integration.py:178-185 | a budget with min > max can only come from the range pattern |
| Preferences.LocationPreferences | app/api/whatsapp_integration.py:189-190 | defines the zones as the listed zones that occur, in list order; its property is `LocationPreferencesSpec` |
| Preferences.AdditionalFeatures | app/api/whatsapp_integration.py:213-228 | defines the features as the labels whose keyword occurs, in table order; its property is `AdditionalFeaturesSpec` |
| Preferences.PresentWordsSpec | app/api/whatsapp_integration.py:190 | the filter keeps exactly the listed words that occur, in list order |
| Preferences.LocationPreferencesSpec | app/api/whatsapp_integration.py:189-190 | the zones are exactly the listed zones that occur, in list order, without repetition, at most six |
| Preferences.PresentLabelsSpec | app/api/whatsapp_integration.py:224-226 | the loop's labels are exactly those whose keyword occurs, in declaration order |
| Preferences.AdditionalFeaturesSpec | app/api/whatsapp_integration.py:213-228 | the features are exactly the labels of the keywords that occur (`seguridad` gives `seguridad 24/7`), in declaration order, without repetition, at most seven |
| Preferences.FeatureList | app/api/whatsapp_integration.py:213-228 | the appending loop over the keyword table yields exactly those features |
| Preferences.FirstRuleWins | app/api/whatsapp_integration.py:193-200 | in a priority chain (the property type at 193-200 and the urgency at 231-236), the first rule with a word present decides |
| Preferences.FirstRuleNone | app/api/whatsapp_integration.py:231-236 | a priority chain selects nothing iff no rule has a word present |
| Preferences.PropertyTypeOf | app/api/whatsapp_integration.py:193-200 | defines the `if`/`elif` chain over the property-type words; `PropertyTypeByPriority` proves it is the first-rule-wins chain |
| Preferences.UrgencyOf | app/api/whatsapp_integration.py:231-236 | defines the urgency chain; `UrgencyByPriority` proves it is the first-rule-wins chain with `baja` by default |
| Preferences.PropertyTypeByPriority | app/api/whatsapp_integration.py:193-200 | the property type is `casa`, then `departamento`/`depto`, then `terreno`, then `oficina`, by priority; absent when none occurs |
| Preferences.UrgencyByPriority | app/api/whatsapp_integration.py:231-236 | the urgency is `alta` for any of its words (winning over `media`), else `media`, else `baja` |
| Preferences.RoomCount | app/api/whatsapp_integration.py:203-210 | defines a count as `int` of the digits of the leftmost digits-spaces-keyword match, absent without a match; its property is `RoomCountSpec` |
| Preferences.RoomWordsAreKeywords | app/api/whatsapp_integration.py:203-208 | the bedroom and bathroom words start with a letter, so `RoomCountSpec` holds for both counts |
| Preferences.RoomCountSpec | app/api/whatsapp_integration.py:203-210 | a count is absent iff there is no digits-spaces-keyword match; otherwise it is the integer value of the digits of the leftmost match |
| Preferences.ExtractPreferences | app/api/whatsapp_integration.py:163-238 | the record the endpoint returns always has an urgency |
| Preferences.ExtractionIgnoresCase | app/api/whatsapp_integration.py:164 | the extraction gives the same record for a message and its lower-cased form |
| Preferences.SetPropertyType | app/api/whatsapp_integration.py:193-200 | the chain sets the property type to the type selected by priority when a type word occurs, leaves it unchanged otherwise, and changes no other field |
| Preferences.SetUrgency | app/api/whatsapp_integration.py:231-236 | the chain always sets the urgency to the level selected by priority and changes no other field |
| Preferences.ClientPreferences.constructor | app/api/whatsapp_integration.py:47-55 | a new record has every field absent or empty |
| Preferences.AnalyzeClientPreferences | app/api/whatsapp_integration.py:157-242 | filling a fresh record field by field, in the endpoint's order, yields exactly `ExtractPreferences` of the message |
| Scenarios.Amount150Budget | app/api/whatsapp_integration.py:170-185 | "busco algo de 150 mil bs" gives the budget [120000, 180000] |
| Scenarios.Range500To800Budget | app/api/whatsapp_integration.py:170-186 | "entre 500 y 800 mil" gives [640000, 960000]: the amount-with-unit pattern matches "800 mil" before the range pattern is tried |
| Scenarios.Range9To2Budget | app/api/whatsapp_integration.py:172-182 | "entre 9 y 2" gives [9, 2], a range whose minimum exceeds its maximum |
| Scenarios.InvestmentReadsAsVisit | app/api/whatsapp_integration.py:84-98 | a message containing "inversion" holds the visit word "ver", so it is handed to an agent without any service call |
| Scenarios.BeachReadsAsUrgent | app/api/whatsapp_integration.py:231-232 | a message containing "playa" holds the urgency word "ya", so it is read as urgent |
| Scenarios.Kinder2500Budget | app/api/whatsapp_integration.py:171-185 | "kinder 2500" gives [2000000, 3000000]: the k of "kinder" multiplies the amount 2500 by 1000 |

Three behaviours of the code differ from what its patterns appear to intend. The model follows the code:

- **The range example.** "entre 500 y 800 mil" reads naturally as the range [500000, 800000]. The code tries the amount-with-unit pattern first, so the result is [640000, 960000] (`Scenarios.Range500To800Budget`).
- **The letter k.** The factor 1000 is meant for amounts like "150k". The code tests for the letter k anywhere in the text, so "kinder 2500" gives [2000000, 3000000] (`Preferences.AnyLetterKScales`, `Scenarios.Kinder2500Budget`).
- **Range ordering.** A budget range would be expected to have min ≤ max. The range pattern keeps its bounds as written (`Scenarios.Range9To2Budget`, `Preferences.UnorderedOnlyFromBetween`).

## Left out

- The internals of the context service, the title suggester and the topic formatter. They are language-model and index calls whose code is not part of this model, so their replies are parameters. In particular, the number of suggested titles is not bounded by 3; only the argument 3 is modelled.
- Logging, `async`, FastAPI routing and Pydantic validation and defaults. An exception raised by a service is modelled as a failure with status 500 and the error's message.
- Exceptions the extractor could raise. The model has no error path there; the one exception its rules can raise is the next item.
- Preferences.RoomCount: returns the count for a digit run of any length. CPython's `int()` raises `ValueError` for a string of more than 4300 digits (its default integer string conversion limit), which lines 240-242 turn into a 500 response; that failure is not modelled.
- `app/main.py`, `get_property_ai_description`, `health_check`, `load_property_documents` and the request schemas. They contain no routing or extraction logic.
- Text.Lower: lower-cases only ASCII and Latin-1 capitals. Python's full Unicode case mapping is not modelled.
- Patterns.DigitRunEnd: `\d` is read as the ASCII digits only. Python's `\d` on `str` also accepts other Unicode decimal digits.
- Patterns.NumberValue: uses exact rational arithmetic. IEEE-754 rounding of `float()` and of the ×0.8 and ×1.2 multiplications is not modelled. `Preferences.Budget` applies the factor to the range read, where the code applies it to each amount first; in exact arithmetic the two agree.
- Preferences.ExtractPreferences: the property type and urgency are enumerations. Their `Name()` gives the strings the record holds ('casa', 'alta', …).
- Router.Respond: the reply's `response` is the empty string when the context service's answer has no `answer` key. An answer key holding a non-string value is not modelled.
