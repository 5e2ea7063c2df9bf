# whatsapp-sdk message building, modelled in Dafny

This project models the part of the Python `whatsapp-sdk` that turns a call
into an HTTP request to the WhatsApp Cloud API:

- **the client** (`Client`): the bearer token; the `host` getter/setter; the
  request URL of `post` and `get`; the shared header map that both calls
  update in place; and the classification of a response by its status code;
- **the message builder** (`Whatsapp`): the `msg_type` dispatch of
  `send_free_form_message`, with its checks in the SDK's order, and the
  header/body/footer component assembly of `send_template_message`;
- **the records** (`RequestSchema`, `Template`): the free-form and template
  message records, with their defaults, the parameter kinds each template
  component admits, their `model_dump()` as a JSON document, and a decoder
  that reads a dump back;
- **the tag tables** (`Enums`): the string value of every enumeration member.

Record construction in the SDK validates its fields, and a `str` field given
`None` is refused. The builder passes such a `None` in two places: a
missing `to`, and a missing longitude or latitude of a location. The model
turns each into a `ValidationError` result that names the record class and
the fields.

The response a request receives is a parameter of `Client.Post` and
`Client.Get`. Decoding its body is an input that has already either
succeeded (`Parsed`) or failed (`DecodeError`).

Files:

| file | module | contents |
|---|---|---|
| `wrappers.dfy` | `Wrappers` | `Option`, `Result` |
| `json.dfy` | `Json` | JSON documents, and generic encoders/decoders with their round trips |
| `enums.dfy` | `Enums` | tag tables and lookups by value |
| `request_schema.dfy` | `RequestSchema` | free-form records, dump, decoder, round trips |
| `template.dfy` | `Template` | template records, parameter admission, dump, decoder, round trips |
| `client.dfy` | `Client` | `class Client` and the functions that specify it |
| `whatsapp.dfy` | `Whatsapp` | the free-form builder, template assembly, and `class Whatsapp` |

The tag records are the free-form message records, the interactive
records, the template parameters and the template components. Each of them
has a `type` typed by an enumeration. In the model that `type` is not a
field: each variant's `Type()` function returns its class default instead.

A `type` typed as a string is an ordinary field called `kind`, which the
caller may set:
- the interactive `Header`, default "text";
- `ReplyButton`, default "reply";
- `TemplateMsg`, default "template";
- `Phone`, `Url` and `Email`, where it is optional and defaults to None.

`Address` has an optional `type` that is an `AddressType`. It is modelled
as the settable field `kind: Option<Enums.AddressType>`, default None.

## Model

| member | source | states |
|---|---|---|
| Enums.ParseFreeFormMsgType | src/whatsapp_sdk/enums.py:7-23 | a string accepted as a free-form message type is that member's value |
| Enums.FreeFormLookup | src/whatsapp_sdk/enums.py:7-23 | looking up a member's value yields that member |
| Enums.FreeFormValuesDistinct | src/whatsapp_sdk/enums.py:7-23 | two free-form message types with the same string value are the same member (the table is injective) |
| Enums.ParseMediaMsgType | src/whatsapp_sdk/enums.py:26-31 | a string accepted as a media type is that member's value |
| Enums.MediaLookup | src/whatsapp_sdk/enums.py:26-31 | looking up a media type's value yields that member |
| Enums.MediaAsFreeForm | src/whatsapp_sdk/enums.py:11-31 | every media type value is also a free-form message type value |
| Enums.FreeFormAsMedia | src/whatsapp_sdk/enums.py:11-31 | a free-form type is a media type exactly when some media type has its value, and then it is that one |
| Enums.ParseInteractiveMsgType | src/whatsapp_sdk/enums.py:34-37 | exactly "list", "button" and "cta_url" are accepted, each as the member with that value |
| Enums.InteractiveLookup | src/whatsapp_sdk/enums.py:34-37 | looking up an interactive type's value yields that member |
| Enums.InteractiveValuesDistinct | src/whatsapp_sdk/enums.py:34-37 | the three interactive values are pairwise distinct |
| Enums.ParseAddressType | src/whatsapp_sdk/enums.py:40-43 | exactly "HOME" and "WORK" are accepted |
| Enums.AddressLookup | src/whatsapp_sdk/enums.py:40-43 | looking up an address type's value yields that member |
| Enums.ParseComponentType | src/whatsapp_sdk/enums.py:45-49 | exactly "header", "body", "footer" and "button" are accepted |
| Enums.ComponentLookup | src/whatsapp_sdk/enums.py:45-49 | looking up a component type's value yields that member |
| Enums.ParseTemplateHeaderType | src/whatsapp_sdk/enums.py:52-54 | exactly "text" and "image" are accepted, each as the member with that value |
| Enums.TemplateHeaderLookup | src/whatsapp_sdk/enums.py:52-54 | looking up a template header type's value yields that member |
| Enums.ParseParameterType | src/whatsapp_sdk/enums.py:57-65 | a string accepted as a parameter type is that member's value |
| Enums.ParameterLookup | src/whatsapp_sdk/enums.py:57-65 | looking up a parameter type's value yields that member |
| Enums.ParameterTypesDistinct | src/whatsapp_sdk/enums.py:57-65 | the table lists all eight parameter types and their values are pairwise distinct |
| RequestSchema.PayloadField | src/whatsapp_sdk/request_schema.py:29-237 | every free-form record names its payload field after its own `type` tag |
| RequestSchema.PayloadFieldIsNotEnvelopeField | src/whatsapp_sdk/request_schema.py:14-237 | no payload field name clashes with an envelope field name, so a dump keeps every envelope field |
| RequestSchema.EnvelopeDefaultsDumped | src/whatsapp_sdk/request_schema.py:14-19 | a message given only `to` and a payload dumps product "whatsapp", recipient type "individual", `preview_url` false and no context |
| RequestSchema.DefaultLocationDumped | src/whatsapp_sdk/request_schema.py:80-84 | a location given no arguments dumps its longitude as `[null]` (the one-element tuple default) and the other three fields as null |
| RequestSchema.ContextRoundTrip | src/whatsapp_sdk/request_schema.py:10-11 | a reply context reads back from its dump |
| RequestSchema.TextRoundTrip | src/whatsapp_sdk/request_schema.py:24-26 | a text (with its own `preview_url`) reads back from its dump |
| RequestSchema.ReactionRoundTrip | src/whatsapp_sdk/request_schema.py:36-38 | a reaction reads back from its dump |
| RequestSchema.MediaRoundTrip | src/whatsapp_sdk/request_schema.py:48-50 | a media object reads back from its dump, whichever of link and id are null |
| RequestSchema.LocationRoundTrip | src/whatsapp_sdk/request_schema.py:80-84 | a location reads back from its dump, including the `(None,)` longitude |
| RequestSchema.NameRoundTrip | src/whatsapp_sdk/request_schema.py:94-100 | a contact name reads back from its dump |
| RequestSchema.PhoneRoundTrip | src/whatsapp_sdk/request_schema.py:103-105 | a phone reads back from its dump |
| RequestSchema.UrlRoundTrip | src/whatsapp_sdk/request_schema.py:108-110 | a URL entry reads back from its dump |
| RequestSchema.OrganizationRoundTrip | src/whatsapp_sdk/request_schema.py:113-116 | an organisation reads back from its dump |
| RequestSchema.EmailRoundTrip | src/whatsapp_sdk/request_schema.py:119-121 | an email entry reads back from its dump |
| RequestSchema.AddressRoundTrip | src/whatsapp_sdk/request_schema.py:124-131 | an address, including its HOME/WORK type, reads back from its dump |
| RequestSchema.AddressesRoundTrip | src/whatsapp_sdk/request_schema.py:135 | a contact's address list reads back from its dump |
| RequestSchema.EmailsRoundTrip | src/whatsapp_sdk/request_schema.py:137 | a contact's email list reads back from its dump |
| RequestSchema.PhonesRoundTrip | src/whatsapp_sdk/request_schema.py:140 | a contact's phone list reads back from its dump |
| RequestSchema.UrlsRoundTrip | src/whatsapp_sdk/request_schema.py:141 | a contact's URL list reads back from its dump |
| RequestSchema.ContactRoundTrip | src/whatsapp_sdk/request_schema.py:134-141 | a contact, with every optional part present or null, reads back from its dump |
| RequestSchema.ContactsRoundTrip | src/whatsapp_sdk/request_schema.py:144-146 | a contact list reads back from its dump |
| RequestSchema.SectionRoundTrip | src/whatsapp_sdk/request_schema.py:164-172 | a list section and its rows read back from their dump |
| RequestSchema.DecodeAction | src/whatsapp_sdk/request_schema.py:190-222 | an action read under an interactive tag has that tag as its kind |
| RequestSchema.ActionRoundTrip | src/whatsapp_sdk/request_schema.py:175-201 | every action reads back from its dump under its own tag, with the "reply" and "cta_url" defaults kept |
| RequestSchema.InteractiveRoundTrip | src/whatsapp_sdk/request_schema.py:204-222 | an interactive object reads back from its dump, whose `type` is the tag paired with its action |
| RequestSchema.DecodePayload | src/whatsapp_sdk/request_schema.py:29-237 | a payload read under a free-form tag has that tag |
| RequestSchema.MediaTagSelectsMediaDecoder | src/whatsapp_sdk/request_schema.py:53-75 | each media tag selects the media record of that kind |
| RequestSchema.MediaPayloadRoundTrip | src/whatsapp_sdk/request_schema.py:48-75 | a media payload reads back from the field named after its media kind |
| RequestSchema.PayloadRoundTrip | src/whatsapp_sdk/request_schema.py:29-237 | a payload reads back from the field its tag names |
| RequestSchema.FreeFormRoundTrip | src/whatsapp_sdk/request_schema.py:14-237 | the dump of any free-form message reads back as that message |
| Template.Component.Parameters | src/whatsapp_sdk/schema/template.py:91-117 | every parameter a component holds is of a kind that component admits |
| Template.ValidateComponent | src/whatsapp_sdk/schema/template.py:91-117 | a component of a type is built from a parameter list exactly when the type is not button and every parameter is admitted (header: text/image/video/document/location; body: text/currency/date_time; footer: text); the result has that type and those parameters |
| Template.PayloadAcceptedNowhere | src/whatsapp_sdk/schema/template.py:85-117 | a list holding a payload parameter is refused by every component type |
| Template.ComponentTypes | src/whatsapp_sdk/schema/template.py:91-117 | no component class has the button type; the tags are header, body and footer |
| Template.ParameterField | src/whatsapp_sdk/schema/template.py:51-87 | each parameter record names its value field after its own `type` tag |
| Template.DecodeParameter | src/whatsapp_sdk/schema/template.py:51-87 | a parameter read from a dump has the kind the dump's `type` names |
| Template.TemplateDefaultsDumped | src/whatsapp_sdk/schema/template.py:8-131 | defaults as dumped: template message product "whatsapp", recipient "individual", type "template"; components with empty parameter lists; currency "USD" and 0; date-time ""; language "en_US" |
| Template.ParameterRoundTrip | src/whatsapp_sdk/schema/template.py:51-87 | every parameter reads back from its dump |
| Template.ComponentRoundTrip | src/whatsapp_sdk/schema/template.py:91-117 | every component reads back from its dump, passing admission again |
| Template.TemplateRoundTrip | src/whatsapp_sdk/schema/template.py:120-123 | a template reads back from its dump, components in order |
| Template.TemplateMsgRoundTrip | src/whatsapp_sdk/schema/template.py:126-131 | the dump of any template message reads back as that message |
| Client.Client.constructor | src/whatsapp_sdk/client.py:24-48 | version "v17.0" and timeout 30 by default, scheme "https", host "graph.facebook.com", headers exactly User-Agent and Accept "application/json" |
| Client.BearerToken | src/whatsapp_sdk/client.py:60-61 | the bearer string is "Bearer " followed by exactly the token |
| Client.Client.BearerTokenString | src/whatsapp_sdk/client.py:60-61 | the client's bearer string starts "Bearer " and ends with its own token |
| Client.Client.Host | src/whatsapp_sdk/client.py:64-68 | without a value it returns the host and changes nothing; with one it sets the host, returns None, and no other field changes |
| Client.OrElse | src/whatsapp_sdk/client.py:80-82 | Python's `or` on an optional string: a non-empty string wins, None and "" give the fallback |
| Client.PostUrl | src/whatsapp_sdk/client.py:80-83 | piece by piece: the scheme and "://"; then the host argument, or the client's host when it is None or ""; then "/" + version + "/" + phone number id, in that order, followed by the path, or "/messages" when it is None or "" |
| Client.Client.RequestUrl | src/whatsapp_sdk/client.py:70-83 | the URL is PostUrl over the client's own `_scheme`, `_host`, version and phone number id, so it has the same pieces |
| Client.PostUrlHostArgument | src/whatsapp_sdk/client.py:80-83 | a non-empty host argument makes the client's own host irrelevant |
| Client.PostUrlDefaultPath | src/whatsapp_sdk/client.py:80-83 | without a path the URL starts "https://" and ends "/messages" |
| Client.Decimal | src/whatsapp_sdk/client.py:119 | a status code renders as at least one decimal digit, with no leading zero |
| Client.DecimalRoundTrip | src/whatsapp_sdk/client.py:119 | the rendered digits read back as the status code |
| Client.DecimalLength | src/whatsapp_sdk/client.py:117-119 | a status code between 100 and 999 renders as three digits |
| Client.ProcessResponse | src/whatsapp_sdk/client.py:85-120 | a parsed body is returned wrapped exactly for 401, 2xx and 4xx; a decode failure propagates exactly for 401 and 4xx; 5xx raises ServerError whatever the body; None is returned for a 2xx decode failure and for every status below 200, in 300-399 or from 600 |
| Client.UnauthorizedLikeClientError | src/whatsapp_sdk/client.py:91-105 | testing 401 before the 4xx range changes nothing: 401 behaves like 404 |
| Client.ServerErrorMessage | src/whatsapp_sdk/client.py:117-120 | a 5xx message is the three digits of the status followed by " response from " and the host argument, "None" when absent |
| Client.Authorized | src/whatsapp_sdk/client.py:128-129 | after `get`, the header map has Authorization set to the bearer string and every other header unchanged |
| Client.PostHeaders | src/whatsapp_sdk/client.py:146-160 | after `post`, Authorization is the bearer string, Content-Type is "application/json" or "application/x-www-form-urlencoded" as the body is JSON or form, and every other header is unchanged |
| Client.ContentTypePersists | src/whatsapp_sdk/client.py:122-160 | a Content-Type written by `post` is still set after a later `get` |
| Client.PostHeadersIdempotent | src/whatsapp_sdk/client.py:146-160 | posting twice in the same mode leaves the same headers as posting once |
| Client.Client.Post | src/whatsapp_sdk/client.py:140-168 | headers updated in place as PostHeaders; the request goes to the RequestUrl address with those headers, the timeout and the params as JSON or form body; the outcome is ProcessResponse with the host argument |
| Client.Client.Get | src/whatsapp_sdk/client.py:122-138 | headers updated in place as Authorized; the URL is the client's host, version, id and path with no scheme (the host argument is ignored); params go as the query; the outcome is ProcessResponse with the host argument |
| Whatsapp.Envelope | src/whatsapp_sdk/request_schema.py:14-19 | the outer record is built exactly when `to` is given, with the "whatsapp"/"individual"/false defaults; otherwise validation names the record class and "to" |
| Whatsapp.BuildFreeFormMessage | src/whatsapp_sdk/whatsapp.py:52-116 | a built message keeps the envelope defaults (outer preview_url false whatever is passed), carries the caller's `to`, and is tagged with the selector ("contacts" for "contact"); an unknown selector gives "Invalid msg_type"; without `to` nothing is built |
| Whatsapp.TextSelector | src/whatsapp_sdk/whatsapp.py:53-56 | only a None text is refused ("Text cannot be empty"), an empty one is accepted; the text record gets the body and the caller's preview_url, and the context is passed on |
| Whatsapp.ReactionSelector | src/whatsapp_sdk/whatsapp.py:57-62 | emoji is checked before msg_id; the reaction gets the message id and emoji; no context is attached even when one is given |
| Whatsapp.CheckedMediaSelector | src/whatsapp_sdk/whatsapp.py:63-70 | image and video refuse exactly when both link and id are None; the media record gets both as given |
| Whatsapp.UncheckedMediaSelector | src/whatsapp_sdk/whatsapp.py:71-76 | audio, document and sticker never refuse a missing link and id; they are built whenever `to` is given |
| Whatsapp.LocationSelector | src/whatsapp_sdk/whatsapp.py:77-82 | a location is built exactly when `to`, longitude and latitude are given; a None coordinate fails Location validation; the four arguments are copied and the reply context is attached |
| Whatsapp.ContactSelector | src/whatsapp_sdk/whatsapp.py:83-84 | the contact list is passed through unchecked, without context, under the tag "contacts", which differs from the selector "contact" |
| Whatsapp.InteractiveSelector | src/whatsapp_sdk/whatsapp.py:85-109 | action is checked before body; any other action object gives "Invalid action type"; the three action classes build their interactive record with the given header, body and footer, and the reply context is attached |
| Whatsapp.InteractiveTagFollowsAction | src/whatsapp_sdk/request_schema.py:210-222 | a built interactive message is tagged list, button or cta_url exactly for a list, reply-button or cta-url action |
| Whatsapp.NoPayloadSelectors | src/whatsapp_sdk/whatsapp.py:110-116 | "address" and "messages" build nothing, so no request is made: dumping the empty dict fails |
| Whatsapp.UnhandledKinds | src/whatsapp_sdk/whatsapp.py:110-115 | the free-form types "contacts" and "media" have no branch and give "Invalid msg_type" |
| Whatsapp.FreeFormRequest | src/whatsapp_sdk/whatsapp.py:116 | a built message is posted to "/messages" as a dump that reads back as the message and whose `type` is its tag; a failure is the builder's error |
| Whatsapp.PresentComponents | src/whatsapp_sdk/whatsapp.py:128-134 | the assembled components are in header, body, footer order, hold exactly the components given, one per component given |
| Whatsapp.BuildTemplateMessage | src/whatsapp_sdk/whatsapp.py:118-140 | appending the given components yields the present ones in order; `language.code` is the language argument, `recipient_type` and `to` are forwarded, and the message is typed "template" for product "whatsapp" |
| Whatsapp.TemplateRequest | src/whatsapp_sdk/whatsapp.py:118-142 | the template message is posted to "/messages" as a dump that reads back with the same name, language, recipient and components |
| Whatsapp.Whatsapp.constructor | src/whatsapp_sdk/whatsapp.py:14-15 | the builder keeps the client it is given |
| Whatsapp.Whatsapp.SendFreeFormMessage | src/whatsapp_sdk/whatsapp.py:17-116 | a message that cannot be built returns the builder's error and leaves the client's headers untouched; one that can is sent as a POST to "/messages" with no host argument, with the updated headers, no query, the client's timeout and the dump as JSON body, the headers updated as `post` does |
| Whatsapp.Whatsapp.SendTemplateMessage | src/whatsapp_sdk/whatsapp.py:118-142 | the assembled template message is sent as a POST to "/messages" with no host argument, with the updated headers, no query and the client's timeout, as JSON; its body reads back with product "whatsapp", type "template", the given recipient and recipient type, name, language code and components |

## Left out

- The HTTP session, adapter, connection pool, retries and the network exchange itself (`requests`). The response is a parameter, and the timeout is only recorded in the request.
- JSON decoding of a response body is an input (`Parsed` or `DecodeError`). The `WAResponse` wrapper is modelled as holding the parsed document: its class is not part of this model, and neither are the response records in `schema/response.py` and `response_schema.py`.
- Logging, the `print` of the request URL, and the Python version inside the User-Agent string. The User-Agent string is a constructor argument.
- The `pool_connections`, `pool_maxsize`, `max_retries` and `**kwargs` constructor arguments. They only configure the session.
- `put`, `delete`, `patch` and `mark_message_as_read`, which have no bodies, and the `__main__` block.
- `template_msg.py`, an unused duplicate of the template message record.
- The back-reference `client.whatsapp`. The model builds a `Whatsapp` around a given `Client` instead.
- `_request_headers` is the same dict as `headers`. The model has the single map `headers`.
- Whatsapp.BuildFreeFormMessage: the `recipient_type`, `recipient_id` and `**kwargs` arguments are accepted and never used, as in the source. The outer `preview_url` is never forwarded.
- Whatsapp.BuildTemplateMessage: the parameters are annotated with the interactive `Header`/`Body`/`Footer` classes, but `Template.components` admits only the template component classes. The model takes template components, which is what the list accepts. Passing an interactive record would fail validation, and that is not modelled.
- Client.Client.RequestUrl: `urlunparse` is modelled as scheme + "://" + host + path. Its special case for an empty host with a path starting "//" is not modelled.
- A `type` passed explicitly to the constructor of a record whose tag is an enumeration, such as `Header(type=ComponentType.BUTTON)`, is not modelled. These are the records given by `Type()`: free-form message records, interactive records, template parameters and template components. For them the tag is always the class default. The builder never passes one, so the messages it builds are unaffected. RequestSchema.PayloadField, Template.ComponentTypes and Whatsapp.InteractiveTagFollowsAction hold for that reason.
- Client.Client.Get: `path` is a string. A `path=None` passed by a caller would be rendered as ".../None" in the URL, and that is not modelled.
- JSON objects are maps, so the key order of a dump is not modelled.
- Floating-point coordinates of a template location are kept as their literal text (`Degrees`); number parsing and formatting are not modelled.
- pydantic's coercion is not modelled: numbers to strings, dicts to records, and so on. Field types are taken as given. Two validations are modelled. One is a `None` passed for a required `str` field. The other is the union check of each template component's `parameters` list (Template.ValidateComponent).
- Client.ProcessResponse: a JSON decode error or a server error is returned as a `Client.Outcome` value instead of being raised. So Client.Client.Post, Client.Client.Get, Whatsapp.Whatsapp.SendFreeFormMessage and Whatsapp.Whatsapp.SendTemplateMessage return it too.
- Client.ProcessResponse: the `WAResponse` wrapper is assumed to accept every parsed body. The TypeError that `WAResponse(**...)` raises for a body that is not a JSON object (a list, null, a number) is not modelled.
