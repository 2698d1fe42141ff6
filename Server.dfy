/**
 * The relay server: the module-level state set up at startup (the parsed
 * allow-list and the two optional provider clients) and the request handlers
 * that read it. Handlers take what the providers answered and the clock as
 * inputs, and return the HTTP response together with the provider calls they
 * made, in order.
 */
module Server {
  import opened Outcomes
  import opened JsStrings
  import opened JsValues
  import opened Config
  import opened Origins
  import opened Relay
  import opened Concat

  class ChatServer {
    const allowedOrigins: seq<string>
    const openAiModel: string
    const whatsAppFrom: Option<string>
    const whatsAppTo: Option<string>
    var aiClient: Option<AiClient>
    var twilioClient: Option<TwilioClient>

    /** The messaging client only exists when the sender and recipient are set too. */
    ghost predicate Valid()
      reads this
    {
      twilioClient.Some? ==> IsSet(whatsAppFrom) && IsSet(whatsAppTo)
    }

    /**
     * Startup: parse the allow-list, pick the model, and create each provider's
     * client only when its settings are present; an absent provider is not an
     * error, it only switches its own path off.
     */
    constructor (env: Env)
      ensures Valid()
      ensures allowedOrigins == ParseAllowedOrigins(OrDefault(env.allowedOrigins, DEFAULT_ALLOWED_ORIGINS))
      ensures openAiModel == OrDefault(env.openAiModel, DEFAULT_OPENAI_MODEL)
      ensures whatsAppFrom == env.twilioWhatsAppFrom && whatsAppTo == env.twilioWhatsAppTo
      ensures aiClient.Some? <==> IsSet(env.openAiApiKey)
      ensures aiClient.Some? ==> aiClient.value == AiClient(env.openAiApiKey.value)
      ensures twilioClient.Some? <==> TwilioConfigured(env)
      ensures twilioClient.Some? ==> twilioClient.value == TwilioClient(env.twilioAccountSid.value, env.twilioAuthToken.value)
    {
      var setting := OrDefault(env.allowedOrigins, DEFAULT_ALLOWED_ORIGINS);
      allowedOrigins := ParseAllowedOrigins(setting);
      openAiModel := OrDefault(env.openAiModel, DEFAULT_OPENAI_MODEL);
      whatsAppFrom := env.twilioWhatsAppFrom;
      whatsAppTo := env.twilioWhatsAppTo;
      aiClient := None;
      if IsSet(env.openAiApiKey) {
        aiClient := Some(AiClient(env.openAiApiKey.value));
      }
      twilioClient := None;
      if TwilioConfigured(env) {
        twilioClient := Some(TwilioClient(env.twilioAccountSid.value, env.twilioAuthToken.value));
      }
    }

    /** The CORS `origin` callback: accept, echoing the origin, exactly when the allow-list test passes. */
    method CheckOrigin(origin: Option<string>) returns (decision: CorsDecision)
      ensures decision.Accept? <==> OriginAllowed(allowedOrigins, origin)
      ensures decision.Accept? ==> decision.origin == origin
      ensures decision.Reject? ==> decision.reason == CORS_REJECTION
    {
      if IsFalsyOrigin(origin) || |allowedOrigins| == 0 || origin.value in allowedOrigins {
        decision := Accept(origin);
        return;
      }
      decision := Reject(CORS_REJECTION);
    }

    /**
     * `sendWhatsAppAlert`: without a messaging client, "not sent" and no call;
     * with one, exactly one message from the configured sender to the configured
     * recipient whose body is the alert text, and the provider's id, or its
     * exception.
     */
    method SendWhatsAppAlert(message: string, reply: string, context: ContextField, leadInfo: Option<LeadInfo>,
                             localNow: string, sent: Try<Option<string>>)
      returns (alert: Try<Alert>, call: Option<MessageRequest>)
      requires Valid()
      ensures twilioClient.None? ==> alert == Done(Alert(false, None)) && call == None
      ensures twilioClient.Some? ==>
        call == Some(MessageRequest(whatsAppFrom.value, whatsAppTo.value,
                                    AlertText(message, reply, TemplateContext(context), leadInfo, localNow)))
      ensures twilioClient.Some? && sent.Threw? ==> alert == Threw(sent.error)
      ensures twilioClient.Some? && sent.Done? ==> alert == Done(Alert(true, sent.value))
    {
      if twilioClient.None? {
        return Done(Alert(false, None)), None;
      }

      var text := ALERT_HEADER;
      text := text + (MESSAGE_HEADING + message + SECTION_END);
      text := text + (REPLY_HEADING + reply + SECTION_END);
      ghost var opening := text;
      assert opening == AlertOpening(message, reply);

      if leadInfo.Some? {
        var lead := leadInfo.value;
        text := text + LEAD_HEADING;
        text := text + LeadLine("Nombre: ", lead.name);
        text := text + LeadLine("Email: ", lead.email);
        text := text + LeadLine("Teléfono: ", lead.phone);
        text := text + (LeadLine("Empresa: ", lead.company) + "\n");
        AppendFive(opening, LEAD_HEADING, LeadLine("Nombre: ", lead.name), LeadLine("Email: ", lead.email),
                   LeadLine("Teléfono: ", lead.phone), LeadLine("Empresa: ", lead.company) + "\n");
        assert text == opening + LeadBlock(lead);
      }
      ghost var beforeFooter := text;

      text := text + (DATE_LABEL + localNow + "\n");
      text := text + (CONTEXT_LABEL + TemplateContext(context));
      AppendTwo(beforeFooter, DATE_LABEL + localNow + "\n", CONTEXT_LABEL + TemplateContext(context));
      assert beforeFooter == opening + (if leadInfo.Some? then LeadBlock(leadInfo.value) else "");
      assert text == beforeFooter + AlertFooter(localNow, TemplateContext(context));

      call := Some(MessageRequest(whatsAppFrom.value, whatsAppTo.value, text));
      match sent {
        case Threw(e) => alert := Threw(e);
        case Done(sid) => alert := Done(Alert(true, sid));
      }
    }

    /**
     * `POST /api/chat`: validate, generate, dispatch, respond. An invalid
     * message is a 400 before any provider is asked; an exception from either
     * provider is a 500 with a generic message; otherwise a 200 with the
     * generated reply and the alert's outcome.
     */
    method HandleChat(request: ChatRequest, completion: Try<Option<string>>, sent: Try<Option<string>>, clock: Clock)
      returns (response: HttpResponse, calls: seq<ProviderCall>)
      requires Valid()
      ensures !IsValidChatMessage(request.message) ==>
        response == HttpResponse(400, ErrorBody(CHAT_MESSAGE_REQUIRED)) && calls == []
      ensures IsValidChatMessage(request.message) ==>
        var g := GenerateReply(aiClient, openAiModel, request.message.s, request.context, completion);
        && (g.reply.Threw? ==> response == HttpResponse(500, ErrorBody(CHAT_FAILED)) && calls == CompletionCalls(g))
        && (g.reply.Done? && twilioClient.None? ==>
              response == HttpResponse(200, ChatReply(g.reply.value, false, None, clock.iso))
              && calls == CompletionCalls(g))
        && (g.reply.Done? && twilioClient.Some? ==>
              calls == CompletionCalls(g) + [WhatsApp(MessageRequest(whatsAppFrom.value, whatsAppTo.value,
                         AlertText(request.message.s, g.reply.value, TemplateContext(request.context), request.leadInfo, clock.local)))]
              && response == match sent {
                   case Threw(_) => HttpResponse(500, ErrorBody(CHAT_FAILED))
                   case Done(sid) => HttpResponse(200, ChatReply(g.reply.value, true, sid, clock.iso))
                 })
      ensures response.status == 200 ==> response.body.ChatReply? && response.body.reply != []
      ensures response.status != 200 ==>
        response.body == ErrorBody(if response.status == 400 then CHAT_MESSAGE_REQUIRED else CHAT_FAILED)
      ensures response.status in {200, 400, 500} && |calls| <= 2
    {
      calls := [];
      if !(Truthy(request.message) && request.message.Str?) {
        response := HttpResponse(400, ErrorBody(CHAT_MESSAGE_REQUIRED));
        return;
      }
      var message := request.message.s;

      var generation := GenerateReply(aiClient, openAiModel, message, request.context, completion);
      calls := CompletionCalls(generation);
      if generation.reply.Threw? {
        response := HttpResponse(500, ErrorBody(CHAT_FAILED));
        return;
      }
      var reply := generation.reply.value;

      var alert, call := SendWhatsAppAlert(message, reply, request.context, request.leadInfo, clock.local, sent);
      if call.Some? {
        calls := calls + [WhatsApp(call.value)];
      }
      if alert.Threw? {
        response := HttpResponse(500, ErrorBody(CHAT_FAILED));
        return;
      }

      response := HttpResponse(200, ChatReply(reply, alert.value.sent, alert.value.sid, clock.iso));
    }

    /**
     * `POST /api/leads`: a request without a truthy email and message is a 400
     * with no dispatch; otherwise the canned acknowledgement goes out in one
     * alert flagged as a captured lead with the lead-form context, and the
     * answer is a 200 with `success` set, or a 500 if the dispatch threw.
     */
    method HandleLead(request: LeadRequest, sent: Try<Option<string>>, clock: Clock)
      returns (response: HttpResponse, calls: seq<ProviderCall>)
      requires Valid()
      ensures !IsValidLead(request) ==>
        response == HttpResponse(400, ErrorBody(LEAD_FIELDS_REQUIRED)) && calls == []
      ensures IsValidLead(request) && twilioClient.None? ==>
        response == HttpResponse(200, LeadAccepted(true, LEAD_CAPTURED, false, None)) && calls == []
      ensures IsValidLead(request) && twilioClient.Some? ==>
        && calls == [WhatsApp(MessageRequest(whatsAppFrom.value, whatsAppTo.value,
             AlertText(LEAD_MESSAGE_PREFIX + Render(request.message),
                       LeadReply(request.name, request.interest, request.email),
                       LeadContextJson(clock.iso),
                       Some(LeadInfo(request.name, request.email, request.phone, request.company, request.interest)),
                       clock.local)))]
        && response == match sent {
             case Threw(_) => HttpResponse(500, ErrorBody(LEAD_FAILED))
             case Done(sid) => HttpResponse(200, LeadAccepted(true, LEAD_CAPTURED, true, sid))
           }
      ensures response.status == 200 ==> response.body.LeadAccepted? && response.body.success
      ensures response.status in {200, 400, 500} && |calls| <= 1
    {
      calls := [];
      if !Truthy(request.email) || !Truthy(request.message) {
        response := HttpResponse(400, ErrorBody(LEAD_FIELDS_REQUIRED));
        return;
      }

      var leadInfo := LeadInfo(request.name, request.email, request.phone, request.company, request.interest);
      var context := Context(LeadContextJson(clock.iso));
      var reply := LeadReply(request.name, request.interest, request.email);

      var alert, call := SendWhatsAppAlert(LEAD_MESSAGE_PREFIX + Render(request.message), reply, context,
                                           Some(leadInfo), clock.local, sent);
      if call.Some? {
        calls := [WhatsApp(call.value)];
      }
      if alert.Threw? {
        response := HttpResponse(500, ErrorBody(LEAD_FAILED));
        return;
      }

      response := HttpResponse(200, LeadAccepted(true, LEAD_CAPTURED, alert.value.sent, alert.value.sid));
    }
  }
}
