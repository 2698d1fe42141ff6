/**
 * The request-scoped values of the chat relay and its pure decisions: the reply
 * the generator picks, the WhatsApp alert text, the canned lead acknowledgement,
 * the request validation tests and the health answer.
 *
 * Calls to the two providers are not made here: what a provider answered is an
 * input (`Try<...>`), and what the relay asked of it is returned as a
 * `CompletionRequest` or a `MessageRequest`, so that "no call was made" and
 * "exactly one call was made" can be stated.
 */
module Relay {
  import opened Outcomes
  import opened JsStrings
  import opened JsValues
  import opened Config
  import opened Concat

  // ---------------------------------------------------------------------------
  // Request and response values

  /**
   * The `context` property of a chat request, through `JSON.stringify`:
   * absent, or present with its serialisation (an opaque string).
   */
  datatype ContextField = NoContext | Context(json: string)

  /** The lead fields a request carries; in a chat request, a truthy `leadInfo` that is not an object reads as all `Undefined`. */
  datatype LeadInfo = LeadInfo(name: Value, email: Value, phone: Value, company: Value, interest: Value)

  /** The body of `POST /api/chat`; `leadInfo` is `None` when it is absent or falsy. */
  datatype ChatRequest = ChatRequest(message: Value, context: ContextField, leadInfo: Option<LeadInfo>)

  /** The body of `POST /api/leads`. */
  datatype LeadRequest = LeadRequest(name: Value, email: Value, phone: Value, company: Value, message: Value, interest: Value)

  /** The two clock readings a request may take: `toISOString()` and `toLocaleString('es-ES')`. */
  datatype Clock = Clock(iso: string, local: string)

  datatype ChatMessage = ChatMessage(role: string, content: string)

  /** What the relay asks of the completion provider. */
  datatype CompletionRequest = CompletionRequest(model: string, messages: seq<ChatMessage>, maxTokens: nat, temperature: real)

  /** What the relay asks of the messaging provider. */
  datatype MessageRequest = MessageRequest(from: string, to: string, body: string)

  /** One outbound provider call, in the order the relay makes them. */
  datatype ProviderCall = Completion(completion: CompletionRequest) | WhatsApp(whatsApp: MessageRequest)

  /** The alert dispatcher's result: whether a message went out, and its provider id. */
  datatype Alert = Alert(sent: bool, sid: Option<string>)

  /** The reply generator's result: the request it issued, if any, and the reply or the exception. */
  datatype Generation = Generation(request: Option<CompletionRequest>, reply: Try<string>)

  datatype ResponseBody =
    | ErrorBody(error: string)
    | ChatReply(reply: string, sentAlert: bool, sid: Option<string>, timestamp: string)
    | LeadAccepted(success: bool, message: string, sentAlert: bool, sid: Option<string>)
    | HealthStatus(ok: bool, timestamp: string)

  datatype HttpResponse = HttpResponse(status: nat, body: ResponseBody)

  // ---------------------------------------------------------------------------
  // Constants

  const PLACEHOLDER_REPLY := "Gracias por tu mensaje. " + "Un asesor se comunicará contigo pronto."
  const FALLBACK_REPLY := "Gracias por escribirnos. "
    + "Un especialista de ITAI te contactará pronto para brindarte la mejor solución para tu negocio."
  const MAX_TOKENS: nat := 200
  const TEMPERATURE: real := 0.7

  /** The persona instruction; the serialised context is appended to it. */
  const SYSTEM_PROMPT_INTRO :=
    "Eres el asistente virtual de ITAI, una empresa especializada en desarrollo web y chatbots con IA.\n"
    + "\n"
    + "INFORMACIÓN DE ITAI:\n"
    + "- Especialistas en páginas web modernas con chat IA integrado\n"
    + "- Desarrollamos chatbots que entienden productos específicos de cada negocio\n"
    + "- Ofrecemos respuesta inmediata 24/7 con tono humano y natural\n"
    + "- Entrenamos la IA con catálogos, FAQ y promociones del cliente\n"
    + "- Sistema de captura de leads y alertas automáticas a WhatsApp\n"
    + "- Soluciones personalizadas para cada tipo de negocio\n"
    + "\n"
    + "SERVICIOS PRINCIPALES:\n"
    + "1. Páginas web con chatbot IA integrado\n"
    + "2. Chatbots personalizados para WhatsApp/Facebook\n"
    + "3. Sistemas de automatización de ventas\n"
    + "4. Integración con CRM y bases de datos\n"
    + "5. Asesoría y capacitación en herramientas digitales\n"
    + "\n"
    + "TONO: Conversacional, humano, cercano y profesional. Como si fueras parte del equipo de ITAI.\n"
    + "OBJETIVO: Entender la necesidad del cliente y guiarlo hacia una asesoría personalizada.\n"
    + "\n"
    + "Responde de manera natural, pregunta detalles sobre su negocio si es necesario, y siempre ofrece una asesoría personalizada como próximo paso.\n"
    + "\n"
    + "Contexto adicional: "

  const ALERT_HEADER := "🤖 *NUEVO LEAD - Chat ITAI*\n\n"
  const MESSAGE_HEADING := "💬 *Mensaje del cliente:*\n"
  const REPLY_HEADING := "🧠 *Respuesta IA:*\n"
  const SECTION_END := "\n\n"
  const LEAD_HEADING := "👤 *Datos del lead:*\n"
  const NOT_PROVIDED := "No proporcionado"
  const DATE_LABEL := "🕐 *Fecha:* "
  const CONTEXT_LABEL := "📊 *Contexto:* "

  const CHAT_MESSAGE_REQUIRED := "El campo \"message\" es obligatorio."
  const CHAT_FAILED := "No se pudo procesar la solicitud."
  const LEAD_FIELDS_REQUIRED := "Email y mensaje son obligatorios."
  const LEAD_FAILED := "No se pudo procesar el lead."
  const LEAD_CAPTURED := "Lead capturado exitosamente"
  const LEAD_MESSAGE_PREFIX := "LEAD CAPTURADO: "
  const LEAD_SOURCE := "lead_form"
  const LEAD_CONTEXT_OPEN := "{\"source\":\"" + LEAD_SOURCE + "\",\"timestamp\":\""
  const LEAD_CONTEXT_CLOSE := "\"}"

  // The pieces of the lead acknowledgement, around its three holes.
  const THANKS := "Gracias "
  const NAME_FALLBACK := "por contactarnos"
  const INTEREST_INTRO := ". Hemos recibido tu consulta sobre "
  const INTEREST_FALLBACK := "nuestros servicios"
  const EMAIL_INTRO := ". Un especialista de ITAI te contactará pronto al email "
  const REPLY_CLOSING := " para brindarte una propuesta personalizada."

  // ---------------------------------------------------------------------------
  // Reply generation

  /** The context as the system prompt embeds it: a missing context takes the parameter default `{}`. */
  function PromptContext(context: ContextField): (text: string)
    ensures context.NoContext? ==> text == "{}"
    ensures context.Context? ==> text == context.json
  {
    match context
    case NoContext => "{}"
    case Context(json) => json
  }

  /** The context as the alert text embeds it: `JSON.stringify(undefined)` renders as `undefined`. */
  function TemplateContext(context: ContextField): (text: string)
    ensures context.NoContext? ==> text == "undefined"
    ensures context.Context? ==> text == context.json
  {
    match context
    case NoContext => "undefined"
    case Context(json) => json
  }

  /** The prompt and the alert embed a context the same way exactly when the request carried one. */
  lemma ContextEmbeddingsAgree(context: ContextField)
    ensures PromptContext(context) == TemplateContext(context) <==> context.Context?
  {
    if context.NoContext? {
      assert PromptContext(context)[0] != TemplateContext(context)[0];
    }
  }

  /** The one request sent to the completion provider: the persona plus context as system message, then the user's message. */
  function CompletionRequestFor(model: string, message: string, context: ContextField): (request: CompletionRequest)
    ensures |request.messages| == 2
    ensures request.messages[0].role == "system" && request.messages[1] == ChatMessage("user", message)
    ensures request.model == model && request.maxTokens == MAX_TOKENS && request.temperature == TEMPERATURE
  {
    CompletionRequest(
      model,
      [ChatMessage("system", SYSTEM_PROMPT_INTRO + PromptContext(context)), ChatMessage("user", message)],
      MAX_TOKENS, TEMPERATURE)
  }

  /** The system message is the persona text, with the context serialisation right after it. */
  lemma SystemPromptLayout(model: string, message: string, context: ContextField)
    ensures var prompt := CompletionRequestFor(model, message, context).messages[0].content;
      SYSTEM_PROMPT_INTRO <= prompt && prompt[|SYSTEM_PROMPT_INTRO|..] == PromptContext(context)
  {
    PrefixOfAppend(SYSTEM_PROMPT_INTRO, PromptContext(context));
  }

  /**
   * `output?.trim() || FALLBACK_REPLY`: the provider's text without its
   * surrounding whitespace when any is left, the fixed fallback otherwise. Either
   * way the reply is non-empty and trimmed.
   */
  function SelectReply(content: Option<string>): (reply: string)
    ensures reply != [] && IsTrimmed(reply)
    ensures content.Some? && !AllWhitespace(content.value) ==> reply == Trim(content.value)
    ensures content.None? || AllWhitespace(content.value) ==> reply == FALLBACK_REPLY
  {
    if content.Some? && Trim(content.value) != [] then
      TrimBlank(content.value);
      Trim(content.value)
    else
      assert content.Some? ==> AllWhitespace(content.value) by {
        if content.Some? { TrimBlank(content.value); }
      }
      CannedRepliesTrimmed();
      FALLBACK_REPLY
  }

  /**
   * `generateReply`: without a completion client, the placeholder and no call;
   * with one, exactly one request, whose exception propagates, and otherwise the
   * selected reply. A reply that is produced is never empty.
   */
  function GenerateReply(ai: Option<AiClient>, model: string, message: string, context: ContextField,
                         completion: Try<Option<string>>): (g: Generation)
    ensures ai.None? ==> g == Generation(None, Done(PLACEHOLDER_REPLY))
    ensures ai.Some? ==> g.request == Some(CompletionRequestFor(model, message, context))
    ensures ai.Some? && completion.Threw? ==> g.reply == Threw(completion.error)
    ensures ai.Some? && completion.Done? ==> g.reply == Done(SelectReply(completion.value))
    ensures g.reply.Done? ==> g.reply.value != [] && IsTrimmed(g.reply.value)
  {
    if ai.None? then
      CannedRepliesTrimmed();
      Generation(None, Done(PLACEHOLDER_REPLY))
    else
      var request := CompletionRequestFor(model, message, context);
      match completion
      case Threw(e) => Generation(Some(request), Threw(e))
      case Done(content) => Generation(Some(request), Done(SelectReply(content)))
  }

  /** Both fixed replies are non-empty and have no surrounding whitespace. */
  lemma CannedRepliesTrimmed()
    ensures PLACEHOLDER_REPLY != [] && IsTrimmed(PLACEHOLDER_REPLY)
    ensures FALLBACK_REPLY != [] && IsTrimmed(FALLBACK_REPLY)
  {
    assert PLACEHOLDER_REPLY[0] == 'G' && PLACEHOLDER_REPLY[|PLACEHOLDER_REPLY| - 1] == '.';
    assert FALLBACK_REPLY[0] == 'G' && FALLBACK_REPLY[|FALLBACK_REPLY| - 1] == '.';
  }

  /** The provider calls a generation made. */
  function CompletionCalls(g: Generation): seq<ProviderCall> {
    if g.request.Some? then [Completion(g.request.value)] else []
  }

  // ---------------------------------------------------------------------------
  // Alert text

  /** One line of the lead block: its own field, or `No proporcionado` when that field is falsy. */
  function LeadLine(caption: string, field: Value): (line: string)
    ensures Truthy(field) ==> line == caption + Render(field) + "\n"
    ensures !Truthy(field) ==> line == caption + NOT_PROVIDED + "\n"
  {
    caption + OrElse(field, NOT_PROVIDED) + "\n"
  }

  /** The `Datos del lead` block: name, email, phone and company, in that order. */
  function LeadBlock(lead: LeadInfo): (block: string)
    ensures LEAD_HEADING <= block
    ensures |block| >= 2 && block[|block| - 2..] == SECTION_END
  {
    var name := LeadLine("Nombre: ", lead.name);
    var email := LeadLine("Email: ", lead.email);
    var phone := LeadLine("Teléfono: ", lead.phone);
    var company := LeadLine("Empresa: ", lead.company) + "\n";
    AppendFour(LEAD_HEADING, name, email, phone, company);
    PrefixOfAppend(LEAD_HEADING, name + email + phone + company);
    assert company[|company| - 2..] == SECTION_END;
    SuffixOfAppend(LEAD_HEADING + name + email + phone, company, 2);
    LEAD_HEADING + name + email + phone + company
  }

  /** The closing lines: the local time behind its label, then the context, which ends the footer. */
  function AlertFooter(localNow: string, contextText: string): (footer: string)
    ensures DATE_LABEL <= footer && |DATE_LABEL| + |localNow| <= |footer|
    ensures footer[|DATE_LABEL|..|DATE_LABEL| + |localNow|] == localNow
    ensures |contextText| <= |footer| && footer[|footer| - |contextText|..] == contextText
  {
    var date := DATE_LABEL + localNow + "\n";
    var context := CONTEXT_LABEL + contextText;
    SliceOfMiddle(DATE_LABEL, localNow, "\n" + context, |localNow|);
    assert date + context == DATE_LABEL + localNow + ("\n" + context);
    SuffixOfAppend(date + CONTEXT_LABEL, contextText, |contextText|);
    assert date + context == date + CONTEXT_LABEL + contextText;
    date + context
  }

  /** The part of the alert before the optional lead block: the header, then the message and the reply at their offsets. */
  function AlertOpening(message: string, reply: string): (opening: string)
    ensures ALERT_HEADER <= opening
    ensures MessageOffset() + |message| <= ReplyOffset(message) && ReplyOffset(message) + |reply| <= |opening|
    ensures opening[MessageOffset()..MessageOffset() + |message|] == message
    ensures opening[ReplyOffset(message)..ReplyOffset(message) + |reply|] == reply
  {
    SevenPieces(ALERT_HEADER, MESSAGE_HEADING, message, SECTION_END, REPLY_HEADING, reply, SECTION_END);
    ALERT_HEADER + (MESSAGE_HEADING + message + SECTION_END) + (REPLY_HEADING + reply + SECTION_END)
  }

  /** The WhatsApp alert body: the opening first, the footer last, and the lead block between them when there is one. */
  function AlertText(message: string, reply: string, contextText: string, leadInfo: Option<LeadInfo>, localNow: string): (text: string)
    ensures AlertOpening(message, reply) <= text
    ensures var footer := AlertFooter(localNow, contextText);
      |footer| <= |text| && text[|text| - |footer|..] == footer
  {
    var opening := AlertOpening(message, reply);
    var block := if leadInfo.Some? then LeadBlock(leadInfo.value) else "";
    var footer := AlertFooter(localNow, contextText);
    SliceOfConcat(opening, block, footer, 0, |opening|);
    opening + block + footer
  }

  /** Offset of the client's message in an alert. */
  function MessageOffset(): nat { |ALERT_HEADER| + |MESSAGE_HEADING| }

  /** Offset of the reply in an alert about `message`. */
  function ReplyOffset(message: string): nat { MessageOffset() + |message| + |SECTION_END| + |REPLY_HEADING| }

  /** The alert opens with the fixed header. */
  lemma AlertStartsWithHeader(message: string, reply: string, contextText: string, leadInfo: Option<LeadInfo>, localNow: string)
    ensures ALERT_HEADER <= AlertText(message, reply, contextText, leadInfo, localNow)
  {
    var opening := AlertOpening(message, reply);
    var block := if leadInfo.Some? then LeadBlock(leadInfo.value) else "";
    var footer := AlertFooter(localNow, contextText);
    SliceOfConcat(opening, block, footer, 0, |ALERT_HEADER|);
    assert AlertText(message, reply, contextText, leadInfo, localNow) == opening + block + footer;
  }

  /** The client's message sits right after the header and the message heading. */
  lemma AlertHoldsMessage(message: string, reply: string, contextText: string, leadInfo: Option<LeadInfo>, localNow: string)
    ensures var text := AlertText(message, reply, contextText, leadInfo, localNow);
      MessageOffset() + |message| <= |text| && text[MessageOffset()..MessageOffset() + |message|] == message
  {
    var opening := AlertOpening(message, reply);
    var block := if leadInfo.Some? then LeadBlock(leadInfo.value) else "";
    var footer := AlertFooter(localNow, contextText);
    SliceOfConcat(opening, block, footer, MessageOffset(), MessageOffset() + |message|);
    assert AlertText(message, reply, contextText, leadInfo, localNow) == opening + block + footer;
  }

  /** The reply comes after the message, behind the section break and the reply heading. */
  lemma AlertHoldsReply(message: string, reply: string, contextText: string, leadInfo: Option<LeadInfo>, localNow: string)
    ensures var text := AlertText(message, reply, contextText, leadInfo, localNow);
      && MessageOffset() + |message| <= ReplyOffset(message)
      && ReplyOffset(message) + |reply| <= |text|
      && text[ReplyOffset(message)..ReplyOffset(message) + |reply|] == reply
  {
    var opening := AlertOpening(message, reply);
    var block := if leadInfo.Some? then LeadBlock(leadInfo.value) else "";
    var footer := AlertFooter(localNow, contextText);
    SliceOfConcat(opening, block, footer, ReplyOffset(message), ReplyOffset(message) + |reply|);
    assert AlertText(message, reply, contextText, leadInfo, localNow) == opening + block + footer;
  }

  /** The alert closes with the timestamp line and then the context, which is its very end. */
  lemma AlertEndsWithFooter(message: string, reply: string, contextText: string, leadInfo: Option<LeadInfo>, localNow: string)
    ensures var text := AlertText(message, reply, contextText, leadInfo, localNow);
      var footer := AlertFooter(localNow, contextText);
      && |footer| <= |text| && text[|text| - |footer|..] == footer
      && |contextText| <= |text| && text[|text| - |contextText|..] == contextText
  {
    var text := AlertText(message, reply, contextText, leadInfo, localNow);
    SuffixOfSuffix(text, AlertFooter(localNow, contextText), contextText);
  }

  /** The lead block follows the reply section exactly when lead data is present. */
  lemma AlertLeadBlockIff(message: string, reply: string, contextText: string, leadInfo: Option<LeadInfo>, localNow: string)
    ensures var text := AlertText(message, reply, contextText, leadInfo, localNow);
      var at := |AlertOpening(message, reply)|;
      leadInfo.Some? <==> (at + |LEAD_HEADING| <= |text| && text[at..at + |LEAD_HEADING|] == LEAD_HEADING)
    ensures leadInfo.Some? ==>
      var text := AlertText(message, reply, contextText, leadInfo, localNow);
      var at := |AlertOpening(message, reply)|;
      text[at..at + |LeadBlock(leadInfo.value)|] == LeadBlock(leadInfo.value)
  {
    var opening := AlertOpening(message, reply);
    var footer := AlertFooter(localNow, contextText);
    var block := if leadInfo.Some? then LeadBlock(leadInfo.value) else "";
    assert AlertText(message, reply, contextText, leadInfo, localNow) == opening + block + footer;
    assert DATE_LABEL[0] != LEAD_HEADING[0];
    HeadedMiddleIff(opening, block, footer, LEAD_HEADING, DATE_LABEL, leadInfo.Some?);
  }

  /**
   * The block is the heading and then the name, email, phone and company lines
   * in that order; each line falls back to `No proporcionado` on its own, when
   * its own field is falsy, whatever the other fields hold.
   */
  lemma LeadBlockDefaults(lead: LeadInfo)
    ensures var name := LeadLine("Nombre: ", lead.name);
      var email := LeadLine("Email: ", lead.email);
      var phone := LeadLine("Teléfono: ", lead.phone);
      var company := LeadLine("Empresa: ", lead.company);
      && LeadBlock(lead) == LEAD_HEADING + name + email + phone + company + "\n"
      && (!Truthy(lead.name) ==> name == "Nombre: " + NOT_PROVIDED + "\n")
      && (!Truthy(lead.email) ==> email == "Email: " + NOT_PROVIDED + "\n")
      && (!Truthy(lead.phone) ==> phone == "Teléfono: " + NOT_PROVIDED + "\n")
      && (!Truthy(lead.company) ==> company == "Empresa: " + NOT_PROVIDED + "\n")
  {
    var company := LeadLine("Empresa: ", lead.company);
    AppendTwo(LEAD_HEADING + LeadLine("Nombre: ", lead.name) + LeadLine("Email: ", lead.email)
              + LeadLine("Teléfono: ", lead.phone), company, "\n");
  }

  /** The lead's `interest` never reaches the alert. */
  lemma AlertIgnoresInterest(message: string, reply: string, contextText: string, lead: LeadInfo, interest: Value, localNow: string)
    ensures AlertText(message, reply, contextText, Some(lead), localNow)
         == AlertText(message, reply, contextText, Some(lead.(interest := interest)), localNow)
  {
  }

  // ---------------------------------------------------------------------------
  // Lead capture

  /** The canned acknowledgement for a captured lead: the thanks and the closing are fixed. */
  function LeadReply(name: Value, interest: Value, email: Value): (reply: string)
    ensures THANKS <= reply
    ensures |REPLY_CLOSING| <= |reply| && reply[|reply| - |REPLY_CLOSING|..] == REPLY_CLOSING
  {
    var n := OrElse(name, NAME_FALLBACK);
    var i := OrElse(interest, INTEREST_FALLBACK);
    var e := Render(email);
    var middle := n + INTEREST_INTRO + i + EMAIL_INTRO + e;
    assert THANKS + n + INTEREST_INTRO + i + EMAIL_INTRO + e + REPLY_CLOSING == THANKS + middle + REPLY_CLOSING;
    OpensAndCloses(THANKS, middle, REPLY_CLOSING);
    THANKS + n + INTEREST_INTRO + i + EMAIL_INTRO + e + REPLY_CLOSING
  }

  /**
   * The acknowledgement thanks the lead by name (or "por contactarnos"), names
   * the interest (or "nuestros servicios"), and always holds the email it will
   * be answered at, each right after its fixed lead-in.
   */
  lemma LeadReplyMentions(name: Value, interest: Value, email: Value)
    ensures var reply := LeadReply(name, interest, email);
      var n := OrElse(name, NAME_FALLBACK);
      var i := OrElse(interest, INTEREST_FALLBACK);
      var e := Render(email);
      var atName := |THANKS|;
      var atInterest := atName + |n| + |INTEREST_INTRO|;
      var atEmail := atInterest + |i| + |EMAIL_INTRO|;
      && atName + |n| <= |reply| && reply[atName..atName + |n|] == n
      && atInterest + |i| <= |reply| && reply[atInterest..atInterest + |i|] == i
      && atEmail + |e| <= |reply| && reply[atEmail..atEmail + |e|] == e
  {
    FiveHoles(THANKS, OrElse(name, NAME_FALLBACK), INTEREST_INTRO, OrElse(interest, INTEREST_FALLBACK), EMAIL_INTRO,
              Render(email), REPLY_CLOSING);
  }

  /** `JSON.stringify({ source: 'lead_form', timestamp })`: the fixed source field, then the timestamp as a JSON string. */
  function LeadContextJson(iso: string): (json: string)
    ensures LEAD_CONTEXT_OPEN <= json && |json| == |LEAD_CONTEXT_OPEN| + |iso| + |LEAD_CONTEXT_CLOSE|
    ensures json[|LEAD_CONTEXT_OPEN|..|LEAD_CONTEXT_OPEN| + |iso|] == iso
    ensures json[0] == '{' && json[|json| - 1] == '}'
  {
    SliceOfMiddle(LEAD_CONTEXT_OPEN, iso, LEAD_CONTEXT_CLOSE, |iso|);
    LEAD_CONTEXT_OPEN + iso + LEAD_CONTEXT_CLOSE
  }

  // ---------------------------------------------------------------------------
  // Validation and health

  /** `/api/chat` goes on only when `message` is a truthy string (so a non-empty one). */
  predicate IsValidChatMessage(message: Value)
    ensures IsValidChatMessage(message) <==> message.Str? && message.s != []
  {
    Truthy(message) && message.Str?
  }

  /** `/api/leads` goes on only when both `email` and `message` are truthy. */
  predicate IsValidLead(request: LeadRequest)
    ensures IsValidLead(request) ==> !request.email.Undefined? && !request.message.Undefined?
    ensures request.email == Str("") || request.message == Str("") ==> !IsValidLead(request)
    ensures request.email.Other? && request.email.truthy && request.message.Str? && request.message.s != [] ==> IsValidLead(request)
  {
    Truthy(request.email) && Truthy(request.message)
  }

  /** `GET /health`: always 200, `ok: true`, stamped with the clock. */
  function Health(iso: string): (response: HttpResponse)
    ensures response.status == 200 && response.body.HealthStatus?
    ensures response.body.ok && response.body.timestamp == iso
  {
    HttpResponse(200, HealthStatus(true, iso))
  }
}
