/**
 * The query router (`process_property_query`): builds the conversation history
 * string, sets keyword flags on the lower-cased message and picks one outcome:
 * a hand-off to a human agent, the context service's answer, or a canned reply.
 * The three collaborating services are oracles: their replies for this request
 * are parameters, and the outcome records which calls were made.
 */
module Router {
  import opened Wrappers
  import opened Text

  // ---------------------------------------------------------------------------
  // Records
  // ---------------------------------------------------------------------------

  /** One earlier exchange; either key may be missing. */
  datatype Turn = Turn(question: Option<string>, answer: Option<string>)

  /** A value of the `metadata` dictionary. */
  datatype MetaValue = Flag(flag: bool) | Label(text: string)

  /** The reply record of the endpoint. */
  datatype PropertyResponse = PropertyResponse(
    success: bool,
    response: string,
    suggestions: seq<string>,
    propertiesMentioned: seq<map<string, string>>,
    requiresHuman: bool,
    metadata: map<string, MetaValue>)

  /** What the context service returns: whether indexed material was used, and the answer
      when the reply carries one. */
  datatype ContextAnswer = ContextAnswer(usedContext: bool, answer: Option<string>)

  /** A service either returns a value or raises an error with a message. */
  datatype Reply<T> = Returned(value: T) | Raised(message: string)

  /** The replies the three services give to this request. */
  datatype Services = Services(
    askWithContext: Reply<ContextAnswer>,
    suggestedTitles: Reply<seq<string>>,
    topicsInline: Reply<string>)

  /** A call made to a service, with its arguments. */
  datatype ServiceCall =
    | AskWithContext(query: string, history: string)
    | SuggestTitles(query: string, maxSuggestions: nat)
    | FormatTopicsInline(titles: seq<string>)

  /** The endpoint either answers or fails with an HTTP status and the error's text. */
  datatype Handled = Responded(reply: PropertyResponse) | ServiceError(status: nat, detail: string)

  /** What the endpoint did for one request: its result and the service calls, in order. */
  datatype Outcome = Outcome(handled: Handled, calls: seq<ServiceCall>)

  // ---------------------------------------------------------------------------
  // Conversation history
  // ---------------------------------------------------------------------------

  /** At most this many earlier turns reach the context service. */
  const HistoryWindow: nat := 5

  /** `history[-5:]`. */
  function Recent(turns: seq<Turn>): (r: seq<Turn>)
    ensures |r| == if |turns| <= HistoryWindow then |turns| else HistoryWindow
    ensures r == turns[|turns| - |r|..]
  {
    if |turns| <= HistoryWindow then turns else turns[|turns| - HistoryWindow..]
  }

  /** The two lines one turn contributes. */
  function TurnLines(t: Turn): seq<string>
  {
    ["Cliente: " + t.question.GetOr(""), "Asistente: " + t.answer.GetOr("")]
  }

  /** The lines of `turns`, in order. */
  function HistoryLines(turns: seq<Turn>): seq<string>
  {
    if |turns| == 0 then [] else HistoryLines(turns[..|turns| - 1]) + TurnLines(turns[|turns| - 1])
  }

  /** The history string handed to the context service. */
  function HistoryText(turns: seq<Turn>): string
  {
    if |turns| == 0 then "" else Join(HistoryLines(Recent(turns)), '\n')
  }

  /** Each turn gives exactly a customer line and an assistant line, in chronological order. */
  lemma {:induction false} HistoryLinesShape(turns: seq<Turn>)
    ensures |HistoryLines(turns)| == 2 * |turns|
    ensures forall k :: 0 <= k < |turns| ==>
              && HistoryLines(turns)[2 * k] == "Cliente: " + turns[k].question.GetOr("")
              && HistoryLines(turns)[2 * k + 1] == "Asistente: " + turns[k].answer.GetOr("")
  {
    if |turns| > 0 {
      var init := turns[..|turns| - 1];
      HistoryLinesShape(init);
      forall k | 0 <= k < |init| ensures init[k] == turns[k] { }
    }
  }

  /** Builds the history by appending two lines per recent turn, then joining with newlines. */
  method BuildHistory(conversationHistory: seq<Turn>) returns (history: string)
    ensures history == HistoryText(conversationHistory)
  {
    history := "";
    if |conversationHistory| > 0 {
      var recent := Recent(conversationHistory);
      var historyLines: seq<string> := [];
      for n := 0 to |recent|
        invariant historyLines == HistoryLines(recent[..n])
      {
        var msg := recent[n];
        assert recent[..n + 1][..n] == recent[..n];
        historyLines := historyLines + ["Cliente: " + msg.question.GetOr("")];
        historyLines := historyLines + ["Asistente: " + msg.answer.GetOr("")];
      }
      assert recent[..|recent|] == recent;
      history := Join(historyLines, '\n');
    }
  }

  predicate NoNewlines(turns: seq<Turn>) {
    forall k :: 0 <= k < |turns| ==> '\n' !in turns[k].question.GetOr("") && '\n' !in turns[k].answer.GetOr("")
  }

  /** Lines built from messages without line breaks hold no line break. */
  lemma HistoryLinesPlain(r: seq<Turn>)
    requires NoNewlines(r)
    ensures forall j :: 0 <= j < |HistoryLines(r)| ==> '\n' !in HistoryLines(r)[j]
  {
    var lines := HistoryLines(r);
    HistoryLinesShape(r);
    forall j | 0 <= j < |lines| ensures '\n' !in lines[j] {
      var k := j / 2;
      if j % 2 == 0 {
        assert lines[j] == "Cliente: " + r[k].question.GetOr("");
      } else {
        assert lines[j] == "Asistente: " + r[k].answer.GetOr("");
      }
    }
  }

  /** The history is empty exactly when there are no earlier turns; when no message holds a
      line break, it splits back into 2·min(5, n) lines: a customer line and an assistant line
      per retained turn, oldest first. */
  lemma HistoryTextSpec(turns: seq<Turn>)
    ensures HistoryText(turns) == "" <==> |turns| == 0
    ensures NoNewlines(turns) && |turns| > 0 ==>
              var lines := Split(HistoryText(turns), '\n');
              var r := Recent(turns);
              && lines == HistoryLines(r)
              && |lines| == 2 * (if |turns| <= HistoryWindow then |turns| else HistoryWindow)
              && forall k :: 0 <= k < |r| ==>
                   lines[2 * k] == "Cliente: " + r[k].question.GetOr("") &&
                   lines[2 * k + 1] == "Asistente: " + r[k].answer.GetOr("")
  {
    if |turns| > 0 {
      var r := Recent(turns);
      var lines := HistoryLines(r);
      HistoryLinesShape(r);
      assert lines[0] == "Cliente: " + r[0].question.GetOr("");
      assert |Join(lines, '\n')| >= |lines[0]| > 0;
      if NoNewlines(turns) {
        assert NoNewlines(r) by {
          forall k | 0 <= k < |r| ensures r[k] == turns[|turns| - |r| + k] { }
        }
        HistoryLinesPlain(r);
        SplitJoin(lines, '\n');
      }
    }
  }

  // ---------------------------------------------------------------------------
  // Keyword flags and canned replies
  // ---------------------------------------------------------------------------

  const PriceWords: seq<string> := ["precio", "costo", "vale", "cuesta", "presupuesto"]
  const LocationWords: seq<string> := ["zona", "ubicación", "dirección", "dónde", "barrio"]
  const AvailabilityWords: seq<string> := ["disponible", "libre", "ocupado", "alquiler", "venta"]
  const VisitWords: seq<string> := ["visitar", "ver", "conocer", "cita", "agendar"]

  /** The four keyword flags of a lower-cased message. */
  datatype Intents = Intents(price: bool, location: bool, availability: bool, visit: bool)

  function DetectIntents(q: string): Intents
  {
    Intents(ContainsAny(q, PriceWords), ContainsAny(q, LocationWords), ContainsAny(q, AvailabilityWords), ContainsAny(q, VisitWords))
  }

  const VisitMessage: string :=
    "Entiendo que te gustaría visitar la propiedad. "
    + "Un agente se pondrá en contacto contigo pronto para coordinar una visita. "
    + "¿Hay algún horario que prefieras?"

  const PriceMessage: string :=
    "Te puedo ayudar con información sobre precios de nuestras propiedades. "
    + "¿Qué tipo de propiedad te interesa? ¿Casa, departamento o terreno? "
    + "También sería útil saber en qué zona estás buscando."

  const LocationMessage: string :=
    "Tenemos propiedades en varias zonas de la ciudad. "
    + "Las principales áreas disponibles son: Equipetrol, Zona Norte, "
    + "Urubó, y el Centro. ¿Cuál zona te interesa más?"

  const Capabilities: string :=
    "Soy tu asistente inmobiliario virtual. " + "Puedo ayudarte con:\n"
    + "• Información sobre " + "propiedades disponibles\n"
    + "• Precios y características\n"
    + "• Ubicaciones y zonas\n"
    + "• Proceso de compra o alquiler\n"

  /** The words that introduce the suggested topics. */
  const TopicsIntro: string := "También puedo informarte sobre: "

  const TopicsLead: string := "\n" + TopicsIntro

  const Closing: string := "\n\n¿Qué información necesitas?"

  /** The generic reply, with the suggested topics when there is a line of them. */
  function GenericMessage(topicsLine: string): string
  {
    Capabilities + (if topicsLine != "" then TopicsLead + topicsLine else "") + Closing
  }

  // The fixed text is checked a few literals at a time: the solver handles short literals well.
  lemma IntroLacksCapitalT()
    ensures 'T' !in "Soy tu asistente inmobiliario virtual. " + "Puedo ayudarte con:\n"
  {
    assert 'T' !in "Soy tu asistente inmobiliario virtual. ";
    assert 'T' !in "Puedo ayudarte con:\n";
  }

  lemma FirstTopicLacksCapitalT()
    ensures 'T' !in "• Información sobre " + "propiedades disponibles\n"
  {
    assert 'T' !in "• Información sobre ";
    assert 'T' !in "propiedades disponibles\n";
  }

  lemma OtherTopicsLackCapitalT()
    ensures 'T' !in "• Precios y características\n" + "• Ubicaciones y zonas\n" + "• Proceso de compra o alquiler\n"
  {
    assert 'T' !in "• Precios y características\n";
    assert 'T' !in "• Ubicaciones y zonas\n";
    assert 'T' !in "• Proceso de compra o alquiler\n";
  }

  /** The fixed part of the generic reply has no capital T. */
  lemma FixedTextLacksCapitalT()
    ensures 'T' !in Capabilities + Closing
  {
    IntroLacksCapitalT();
    FirstTopicLacksCapitalT();
    OtherTopicsLackCapitalT();
    assert 'T' !in Capabilities;
    assert 'T' !in Closing;
  }

  /** A reply built around a line of topics shows the lead-in and the line, whatever texts
      surround them. */
  lemma TopicsShown(before: string, topicsLine: string, after: string)
    ensures Contains(before + (TopicsLead + topicsLine) + after, TopicsIntro)
    ensures Contains(before + (TopicsLead + topicsLine) + after, topicsLine)
  {
    ContainsPieces(before, TopicsLead, topicsLine, after);
    assert TopicsLead[1..1 + |TopicsIntro|] == TopicsIntro;
    ContainsInside(before + (TopicsLead + topicsLine) + after, TopicsLead, TopicsIntro, 1);
  }

  /** The generic reply mentions further topics exactly when there is a line of them, and
      then it mentions that line. */
  lemma GenericMessageSpec(topicsLine: string)
    ensures Contains(GenericMessage(topicsLine), TopicsIntro) <==> topicsLine != ""
    ensures topicsLine != "" ==> Contains(GenericMessage(topicsLine), topicsLine)
  {
    if topicsLine != "" {
      TopicsShown(Capabilities, topicsLine, Closing);
    } else {
      FixedTextLacksCapitalT();
      AbsentFirstLetter(Capabilities + Closing, TopicsIntro);
    }
  }

  function Answer(reply: string, suggestions: seq<string>, usedContext: bool): PropertyResponse
  {
    PropertyResponse(true, reply, suggestions, [], false, map["used_context" := Flag(usedContext)])
  }

  const VisitResponse: PropertyResponse :=
    PropertyResponse(true, VisitMessage, [], [], true, map["intent" := Label("visit_request")])

  // ---------------------------------------------------------------------------
  // Routing
  // ---------------------------------------------------------------------------

  /** The outcome of a message, given the history string and the services' replies. */
  function Respond(query: string, history: string, services: Services): (o: Outcome)
    // a visit word hands the conversation to a human before any service is asked
    ensures DetectIntents(Lower(query)).visit <==> o.calls == []
    ensures DetectIntents(Lower(query)).visit ==> o.handled == Responded(VisitResponse)
    // otherwise the context service is asked first, with the message as written and the history
    ensures !DetectIntents(Lower(query)).visit ==> o.calls[0] == AskWithContext(query, history)
    // only a visit request ever asks for a human
    ensures o.handled.Responded? ==> (o.handled.reply.requiresHuman <==> DetectIntents(Lower(query)).visit)
    ensures o.handled.Responded? ==> o.handled.reply.success && o.handled.reply.propertiesMentioned == []
    // a service that raises turns the whole request into a service error
    ensures o.handled.ServiceError? ==>
              && o.handled.status == 500
              && (services.askWithContext.Raised? || services.suggestedTitles.Raised? || services.topicsInline.Raised?)
    // and conversely: a raising context service, or a raising suggester after the context
    // service answered, ends the request with that message and no further call
    ensures !DetectIntents(Lower(query)).visit && services.askWithContext.Raised? ==>
              o == Outcome(ServiceError(500, services.askWithContext.message), [AskWithContext(query, history)])
    ensures !DetectIntents(Lower(query)).visit && services.askWithContext.Returned? && services.suggestedTitles.Raised? ==>
              o == Outcome(ServiceError(500, services.suggestedTitles.message), [AskWithContext(query, history), SuggestTitles(query, 3)])
  {
    var q := Lower(query);
    var intents := DetectIntents(q);
    if intents.visit then
      Outcome(Responded(VisitResponse), [])
    else
      var asked := [AskWithContext(query, history)];
      match services.askWithContext
      case Raised(message) => Outcome(ServiceError(500, message), asked)
      case Returned(result) =>
        var fetched := asked + [SuggestTitles(query, 3)];
        match services.suggestedTitles
        case Raised(message) => Outcome(ServiceError(500, message), fetched)
        case Returned(suggestions) =>
          if result.usedContext then
            Outcome(Responded(Answer(result.answer.GetOr(""), suggestions, true)), fetched)
          else if intents.price then
            Outcome(Responded(Answer(PriceMessage, suggestions, false)), fetched)
          else if intents.location then
            Outcome(Responded(Answer(LocationMessage, suggestions, false)), fetched)
          else if suggestions == [] then
            Outcome(Responded(Answer(GenericMessage(""), suggestions, false)), fetched)
          else
            var formatted := fetched + [FormatTopicsInline(suggestions)];
            match services.topicsInline
            case Raised(message) => Outcome(ServiceError(500, message), formatted)
            case Returned(topicsLine) =>
              Outcome(Responded(Answer(GenericMessage(topicsLine), suggestions, false)), formatted)
  }

  /** The outcome of a request with its earlier turns. */
  function Route(query: string, conversationHistory: seq<Turn>, services: Services): Outcome
  {
    Respond(query, HistoryText(conversationHistory), services)
  }

  /** Only the last five turns matter: a longer history is routed exactly as its tail. */
  lemma RouteSeesLastFive(query: string, conversationHistory: seq<Turn>, services: Services)
    ensures Route(query, conversationHistory, services) == Route(query, Recent(conversationHistory), services)
  {
    var r := Recent(conversationHistory);
    assert Recent(r) == r;
  }

  /** Builds the generic reply by appending to the capabilities text. */
  method AssembleGenericMessage(topicsLine: string) returns (responseText: string)
    ensures responseText == GenericMessage(topicsLine)
  {
    responseText := Capabilities;
    if topicsLine != "" {
      responseText := responseText + (TopicsLead + topicsLine);
    }
    responseText := responseText + Closing;
  }

  /** Processes one request as the endpoint does, step by step. */
  method ProcessPropertyQuery(query: string, conversationHistory: seq<Turn>, services: Services)
    returns (outcome: Outcome)
    ensures outcome == Route(query, conversationHistory, services)
  {
    var history := BuildHistory(conversationHistory);
    var queryLower := Lower(query);
    var isPriceQuery := ContainsAny(queryLower, PriceWords);
    var isLocationQuery := ContainsAny(queryLower, LocationWords);
    var isAvailabilityQuery := ContainsAny(queryLower, AvailabilityWords);
    var isVisitRequest := ContainsAny(queryLower, VisitWords);
    ghost var intents := DetectIntents(queryLower);
    assert intents.visit == isVisitRequest && intents.price == isPriceQuery && intents.location == isLocationQuery;

    if isVisitRequest {
      var responseText := VisitMessage;
      return Outcome(Responded(PropertyResponse(true, responseText, [], [], true, map["intent" := Label("visit_request")])), []);
    }

    var calls := [AskWithContext(query, history)];
    if services.askWithContext.Raised? {
      return Outcome(ServiceError(500, services.askWithContext.message), calls);
    }
    var result := services.askWithContext.value;

    calls := calls + [SuggestTitles(query, 3)];
    if services.suggestedTitles.Raised? {
      return Outcome(ServiceError(500, services.suggestedTitles.message), calls);
    }
    var suggestions := services.suggestedTitles.value;

    if !result.usedContext {
      var responseText: string;
      if isPriceQuery {
        responseText := PriceMessage;
      } else if isLocationQuery {
        responseText := LocationMessage;
      } else {
        var topicsLine := "";
        if suggestions != [] {
          calls := calls + [FormatTopicsInline(suggestions)];
          if services.topicsInline.Raised? {
            return Outcome(ServiceError(500, services.topicsInline.message), calls);
          }
          topicsLine := services.topicsInline.value;
        }
        responseText := AssembleGenericMessage(topicsLine);
      }
      return Outcome(Responded(PropertyResponse(true, responseText, suggestions, [], false, map["used_context" := Flag(false)])), calls);
    }

    outcome := Outcome(Responded(PropertyResponse(true, result.answer.GetOr(""), suggestions, [], false, map["used_context" := Flag(true)])), calls);
  }

  // ---------------------------------------------------------------------------
  // Properties of the routing
  // ---------------------------------------------------------------------------

  /** With the context used, the reply is the service's answer verbatim (empty when it has
      none) together with the suggested titles. */
  lemma ContextUsed(query: string, history: string, services: Services, result: ContextAnswer, titles: seq<string>)
    requires !DetectIntents(Lower(query)).visit
    requires services.askWithContext == Returned(result) && result.usedContext
    requires services.suggestedTitles == Returned(titles)
    ensures Respond(query, history, services) ==
              Outcome(Responded(PropertyResponse(true, result.answer.GetOr(""), titles, [], false, map["used_context" := Flag(true)])),
                      [AskWithContext(query, history), SuggestTitles(query, 3)])
  {
  }

  /** With the context unused, the reply is chosen by precedence: the price template, then
      the location template, then the generic reply, whose topics line is asked for only when
      there are suggested titles. */
  lemma TemplatePrecedence(query: string, history: string, services: Services, result: ContextAnswer, titles: seq<string>)
    requires !DetectIntents(Lower(query)).visit
    requires services.askWithContext == Returned(result) && !result.usedContext
    requires services.suggestedTitles == Returned(titles)
    ensures var o := Respond(query, history, services);
            var fetched := [AskWithContext(query, history), SuggestTitles(query, 3)];
            var intents := DetectIntents(Lower(query));
            && (intents.price ==> o == Outcome(Responded(Answer(PriceMessage, titles, false)), fetched))
            && (!intents.price && intents.location ==> o == Outcome(Responded(Answer(LocationMessage, titles, false)), fetched))
            && (!intents.price && !intents.location && titles == [] ==>
                  o == Outcome(Responded(Answer(GenericMessage(""), titles, false)), fetched))
            && (!intents.price && !intents.location && titles != [] ==>
                  o.calls == fetched + [FormatTopicsInline(titles)]
                  && (o.handled.ServiceError? <==> services.topicsInline.Raised?)
                  && (services.topicsInline.Returned? ==>
                        o.handled == Responded(Answer(GenericMessage(services.topicsInline.value), titles, false))))
  {
  }

  /** The generic reply offers further topics exactly when there are suggested titles and
      their line is not empty. */
  lemma GenericTopics(query: string, history: string, services: Services, result: ContextAnswer, titles: seq<string>)
    requires var intents := DetectIntents(Lower(query)); !intents.visit && !intents.price && !intents.location
    requires services.askWithContext == Returned(result) && !result.usedContext
    requires services.suggestedTitles == Returned(titles)
    requires Respond(query, history, services).handled.Responded?
    ensures var reply := Respond(query, history, services).handled.reply;
            && reply.metadata == map["used_context" := Flag(false)]
            && (Contains(reply.response, TopicsIntro) <==>
                  titles != [] && services.topicsInline.Returned? && services.topicsInline.value != "")
  {
    if titles == [] {
      GenericMessageSpec("");
    } else {
      GenericMessageSpec(services.topicsInline.value);
    }
  }

  /** The availability words never change how a request is handled: two messages that agree
      on the visit, price and location flags are handled alike. */
  lemma AvailabilityIgnored(query1: string, query2: string, history: string, services: Services)
    requires var i1 := DetectIntents(Lower(query1)); var i2 := DetectIntents(Lower(query2));
             i1.visit == i2.visit && i1.price == i2.price && i1.location == i2.location
    ensures Respond(query1, history, services).handled == Respond(query2, history, services).handled
  {
  }
}
