# Chat relay server, modelled in Dafny

This project models the backend of the ITAI website chat (`server/src/index.js`).
The backend is a small HTTP relay that sits between the browser widget and two
providers: a chat-completion service that writes replies, and a WhatsApp messaging
service that alerts the sales team. The model covers:

- **Startup.** The process settings are read with their defaults. The
  `ALLOWED_ORIGINS` list is parsed (split on commas, trimmed, blanks dropped). Each
  provider client is created only when its settings are present.
- **The CORS `origin` callback.** A request is accepted when it has no origin, when
  the allow-list is empty, or when its origin is listed exactly. Otherwise it is
  rejected with `Origin not allowed by CORS`.
- **`generateReply`.** Without a completion client, the reply is a fixed
  placeholder. With one, exactly one request goes out: the persona prompt plus the
  serialised context, then the user's message, at 200 tokens and temperature 0.7.
  The answer is trimmed, and a blank or missing answer is replaced by a fixed
  fallback.
- **`sendWhatsAppAlert`.** Without a messaging client, nothing is sent. With one,
  exactly one message is sent. Its text is built section by section: header,
  client message, reply, optional lead block, date, context.
- **The three endpoints.**
  - `POST /api/chat` validates the message, generates a reply, dispatches the
    alert and answers.
  - `POST /api/leads` validates email and message, builds the canned
    acknowledgement, dispatches the alert and answers.
  - `GET /health` answers `ok`.

The modules follow the program's layers:

- `Outcomes`: `Option` and `Try` (a value, or a thrown error).
- `JsStrings`: the JavaScript `split`, `trim` and `filter(Boolean)` over strings.
- `JsValues`: how a JSON body field behaves in the code: its truthiness, how it
  renders inside a template literal, and `value || fallback`.
- `Origins`: the allow-list and the CORS decision.
- `Concat`: generic facts about where the parts of a concatenated string sit, which the text-building proofs use.
- `Config`: the environment settings and the client handles.
- `Relay`: the request and response values, the reply generator, the alert text,
  the lead acknowledgement and the health answer, as pure functions.
- `Server`: the class `ChatServer`. Its fields hold the module-level state that is
  set at startup. Its methods are the CORS callback, the alert dispatcher and the
  two POST handlers.

Provider calls are not performed. What a provider answered is an input of type
`Try<...>`: the completion text (or none), the message id (or none), or the
exception it threw. Each handler returns the list of provider requests it issued,
in order. That is how the contracts say "no provider is called", "exactly one
alert" and "the alert comes after the completion".

A failed alert fails the whole request. If the WhatsApp dispatch throws, the
handlers catch the exception in their outer `try`, so the client gets a 500 with
the generic error message rather than its reply with `sentAlert: false`
(`server/src/index.js:134` and `:142-145`, `:163-168` and `:176-179`).
`HandleChat` and `HandleLead` state that 500.

## Model

| member | source | states |
|---|---|---|
| JsValues.Truthy | server/src/index.js:153 | JavaScript truthiness of a body field: a missing field is falsy, and a string is truthy exactly when it is non-empty. |
| JsValues.Render | server/src/index.js:161 | Inside a template literal a string reads as itself and a missing field reads as `undefined`. |
| JsValues.OrElse | server/src/index.js:106-109 | `field || fallback` gives the field's rendering when it is truthy and the fallback otherwise. With a non-empty fallback, a string or missing field never yields an empty text. |
| Config.IsSet | server/src/index.js:39 | A setting counts as set exactly when it is truthy as a JavaScript value: present and non-empty. |
| Config.OrDefault | server/src/index.js:9-18 | A destructuring default replaces only an unset variable. A variable set to the empty string stays empty. |
| Config.TwilioConfigured | server/src/index.js:46 | Any one of the four messaging settings unset or empty switches the messaging client off. When it is on, the sender and the recipient are set. |
| JsStrings.Trim | server/src/index.js:23 | `trim` returns the part of the string that lies between a whitespace prefix and a whitespace suffix, and that part has no whitespace at either end. Whitespace is the ECMAScript WhiteSpace and LineTerminator set. |
| JsStrings.TrimTrimmed | server/src/index.js:23 | Trimming a string that is already trimmed returns it unchanged, so trimming twice is the same as trimming once. |
| JsStrings.TrimBlank | server/src/index.js:23-24 | A string trims to the empty string exactly when it is all whitespace. |
| JsStrings.TrimKeepsAbsence | server/src/index.js:22-23 | Trimming never introduces a character. A piece without a comma stays without one after trimming. |
| JsStrings.TrimAll | server/src/index.js:23 | `map(trim)` keeps the number of pieces and trims each piece in place. |
| JsStrings.Split | server/src/index.js:22 | `split(',')` returns at least one piece (the empty setting gives one empty piece), no piece contains the separator, and joining the pieces with it gives back the input. |
| JsStrings.SplitJoin | server/src/index.js:22 | Splitting a join of separator-free pieces returns exactly those pieces, so split and join are inverse. |
| JsStrings.DropEmpty | server/src/index.js:24 | `filter(Boolean)` keeps exactly the non-empty strings. |
| JsStrings.DropEmptyKeepsOrder | server/src/index.js:24 | The filtered list is a subsequence of the input and keeps every copy of each non-empty string. |
| Origins.ParseAllowedOrigins | server/src/index.js:22-24 | Every allow-list entry is non-empty, has no surrounding whitespace and contains no comma. |
| Origins.AllowedOriginsMembership | server/src/index.js:22-24 | An origin is listed exactly when it is non-empty and some comma-separated piece of the setting trims to it. |
| Origins.AllowedOriginsKeepOrder | server/src/index.js:22-24 | The list keeps the order of the setting's trimmed pieces and the multiplicity of each non-blank piece. |
| Origins.AllowedOriginsEmpty | server/src/index.js:22-24 | The list is empty exactly when every piece of the setting is blank. This includes the unset setting, whose default is `''`. |
| Origins.OriginAllowedBySetting | server/src/index.js:22-33 | Stated against the raw setting, a request is accepted exactly when its origin is missing or empty, or every piece of the setting is blank, or some piece trims to exactly the request's origin. |
| Origins.PaddedOriginNeverMatches | server/src/index.js:22-28 | When the list is non-empty, an origin with surrounding whitespace is rejected. |
| Origins.IsFalsyOrigin | server/src/index.js:28 | `!origin` holds exactly when the origin is not truthy as a JavaScript value: absent or empty. |
| Origins.OriginAllowed | server/src/index.js:28 | A falsy origin or an empty list always passes. Otherwise the origin passes exactly when it is in the list. |
| Server.ChatServer.constructor | server/src/index.js:9-50 | Startup applies the defaults `''` and `gpt-4o-mini` only when a setting is unset, parses the allow-list, and creates the completion client exactly when the API key is truthy. It creates the messaging client exactly when all four messaging settings are truthy, which establishes that a messaging client implies a sender and a recipient. |
| Server.ChatServer.CheckOrigin | server/src/index.js:26-34 | The callback accepts, echoing the origin, exactly when the origin is falsy, the list is empty or the origin is listed. Otherwise it rejects with `Origin not allowed by CORS`. |
| Relay.PromptContext | server/src/index.js:52-79 | In the system prompt, a missing context reads as `{}` (the parameter default), and a present one as its serialisation. |
| Relay.TemplateContext | server/src/index.js:113 | In the alert, a missing context reads as `undefined` (`JSON.stringify(undefined)` inside a template), and a present one as its serialisation. |
| Relay.ContextEmbeddingsAgree | server/src/index.js:52-113 | The prompt and the alert show the same context text exactly when the request carried a context. |
| Relay.CompletionRequestFor | server/src/index.js:81-89 | The completion request has the configured model, two messages (system first, then the user's message verbatim), 200 max tokens and temperature 0.7. |
| Relay.SystemPromptLayout | server/src/index.js:57-79 | The system message starts with the fixed persona text. What follows it is the serialised context, or `{}` when the request had none. |
| Relay.SelectReply | server/src/index.js:91-92 | The reply is never empty and has no surrounding whitespace. It is the trimmed provider text when that text is not blank, and the fixed fallback when the text is missing or blank. |
| Relay.GenerateReply | server/src/index.js:52-93 | Without a client, the result is the fixed placeholder and no request. With a client, exactly one request, built by `CompletionRequestFor`; the provider's exception propagates, otherwise the result is the selected reply. Any reply produced is non-empty and trimmed. |
| Relay.LeadLine | server/src/index.js:106-109 | Each lead line is its caption, then the field's rendering when the field is truthy or `No proporcionado` when it is falsy, then a line break. This holds per field. |
| Relay.LeadBlock | server/src/index.js:104-110 | The lead block opens with the `Datos del lead` heading and ends with a blank line. |
| Relay.AlertOpening | server/src/index.js:100-102 | The opening starts with the alert header. The client's message and then the reply sit at fixed offsets behind their headings. |
| Relay.AlertFooter | server/src/index.js:112-113 | The footer starts with the date label, with the local time right after it, and ends with the context text. |
| Relay.AlertText | server/src/index.js:100-113 | The alert starts with the opening and ends with the footer. The lead block, when present, sits between them. |
| Relay.AlertStartsWithHeader | server/src/index.js:100 | The alert text opens with the `NUEVO LEAD - Chat ITAI` header. |
| Relay.AlertHoldsMessage | server/src/index.js:100-101 | The client's message sits in the alert right after the header and the message heading. |
| Relay.AlertHoldsReply | server/src/index.js:100-102 | The reply sits after the message, behind the section break and the reply heading. |
| Relay.AlertEndsWithFooter | server/src/index.js:112-113 | The alert ends with the date line followed by the serialised context, and the context is the very end of the text. |
| Relay.AlertLeadBlockIff | server/src/index.js:104-110 | The lead heading follows the reply section exactly when lead data is present, and then the whole lead block sits there. |
| Relay.LeadBlockDefaults | server/src/index.js:104-110 | The block is the heading, then the name, email, phone and company lines in that order, then a blank line. Each line reads `No proporcionado` when its own field is falsy, whatever the other fields hold. |
| Relay.AlertIgnoresInterest | server/src/index.js:104-110 | With the message, the reply and the rest of the lead fixed, the lead block never shows `interest`, so changing it leaves the alert text unchanged. In `/api/leads` the interest still reaches the alert, through the acknowledgement that becomes its reply. |
| Relay.LeadReply | server/src/index.js:161 | The lead acknowledgement always opens with `Gracias ` and closes with the fixed `para brindarte una propuesta personalizada.` sentence end. |
| Relay.LeadReplyMentions | server/src/index.js:161 | The lead acknowledgement holds the lead's name (or `por contactarnos`), then the interest (or `nuestros servicios`), then the email verbatim, each right after its fixed lead-in. |
| Relay.LeadContextJson | server/src/index.js:159 | The lead-form context is a JSON object: the fixed `lead_form` source field, then the timestamp verbatim as a string. |
| Relay.IsValidChatMessage | server/src/index.js:128 | A chat message passes validation exactly when it is a non-empty string. |
| Relay.IsValidLead | server/src/index.js:153 | A missing or empty email or message is refused. A truthy non-string email with a non-empty message is accepted. |
| Relay.Health | server/src/index.js:182-184 | `/health` always answers 200 with `ok: true` and the clock's timestamp. |
| Server.ChatServer.SendWhatsAppAlert | server/src/index.js:95-122 | With no messaging client, the result is "not sent", no id and no call. With one, the result is exactly one message from the configured sender to the configured recipient, whose body is the alert text. The step-by-step build is proved equal to `AlertText`. The provider's exception propagates; otherwise the result is "sent" with its id. |
| Server.ChatServer.HandleChat | server/src/index.js:124-146 | A missing, falsy or non-string message gives a 400 with no provider call. If generation throws, the result is a 500 after only the completion call. Otherwise the alert is the last call. The result is a 200 with the reply, the alert outcome and the timestamp, or a 500 if the dispatch threw. A 200 always carries a non-empty reply, and any other status carries the matching error body. |
| Server.ChatServer.HandleLead | server/src/index.js:149-180 | A falsy email or message gives a 400 with no call. Otherwise at most one alert goes out: its message is prefixed `LEAD CAPTURADO: `, the reply is the canned acknowledgement, the context is the lead-form source with the timestamp, and the lead block is present. The result is a 200 with `success` and the alert outcome, or a 500 if the dispatch threw. |

## Left out

- `main.js` (the browser widget) is not part of this model.
- Express routing, the `cors` and `express.json` middleware, `dotenv`, `app.listen` and the `PORT` setting are left out. The handlers are called directly with the parsed body.
- The providers' network calls are left out. Their answers (completion text, message id, or a thrown error) are inputs. Client construction is a value, so an exception thrown by a provider library's constructor is not modelled.
- `JSON.stringify` is left out. A request's `context` is an already-serialised opaque string. The lead-form context is written out as the literal JSON the code produces.
- The clock is left out. `toISOString()` and `toLocaleString('es-ES')` are two independent opaque input strings of a request. The code reads the clock at several moments, and nothing in the model ties the two strings to each other or to one instant.
- Console logging is left out, along with the asynchronous interleaving of concurrent requests (the handlers only read the startup state).
- Relay.GenerateReply: a completion whose content is present but not a string (where `trim` would throw) is not modelled. The content is `Option<string>`.
- Server.ChatServer.HandleChat: a truthy `leadInfo` that is not an object reads as all fields `Undefined`. The caller passes such a value as `Some` of an all-`Undefined` lead; the model does not derive it from the body.
- JsValues.Render: a body value whose `${...}` rendering throws is not modelled. An example is an object whose `toString` and `valueOf` cannot be called, such as `{"toString":1}`. Every non-string value is given some text. The source would throw while building the lead acknowledgement (`server/src/index.js:161`) or the prefixed lead message (`:164`) or a lead line of the alert (`:106-109`), and answer 500 without dispatching. The 200 outcomes that `Server.ChatServer.HandleChat` and `Server.ChatServer.HandleLead` state therefore assume that every field renders.
