/**
 * The message builder: `send_free_form_message` selects a record class by
 * its `msg_type` selector, checks the fields that selector needs (in the
 * SDK's order), builds the record and posts its dump to "/messages";
 * `send_template_message` assembles the component list and posts the
 * template message the same way.
 *
 * Record construction validates `str` fields: a None given for one is
 * rejected (`ValidationError`) before anything is sent.
 */
module Whatsapp {
  import opened Wrappers
  import opened Json
  import Enums
  import opened RequestSchema
  import Template
  import Client

  /** Why a message was not built. */
  datatype BuildError =
    | ValueError(message: string)                   // raised by the builder itself
    | ValidationError(model: string, fields: seq<string>)  // raised by record validation
    | AttributeError(message: string)               // `{}.model_dump()`

  /** The `action` argument: one of the three action records, or an object of any other type. */
  datatype ActionArg = Known(action: Action) | Foreign(typeName: string)

  /** The keyword arguments of `send_free_form_message`, with their defaults. */
  datatype FreeFormArgs = FreeFormArgs(
    msgType: string := "text",
    recipientType: string := "individual",
    to: Option<string> := None,
    recipientId: Option<string> := None,
    previewUrl: bool := false,
    mediaLink: Option<string> := None,
    mediaId: Option<string> := None,
    text: Option<string> := None,
    msgId: Option<string> := None,
    emoji: Option<string> := None,
    longitude: Option<string> := None,
    latitude: Option<string> := None,
    locationName: Option<string> := None,
    locationAddress: Option<string> := None,
    contacts: seq<Contact> := [],
    header: Option<Header> := None,
    body: Option<Body> := None,
    footer: Option<Footer> := None,
    action: Option<ActionArg> := None,
    context: Option<Context> := None)

  /** What is handed to the client's `post`: the path and the JSON parameters. */
  datatype Outgoing = Outgoing(path: string, params: Json)

  const MediaMissing: string := "Media Link  and Media ID cannot be empty"

  /** The `msg_type` selectors the builder has a branch for. */
  predicate Handled(msgType: string) {
    msgType in {"text", "reaction", "image", "video", "audio", "document", "sticker",
                "location", "contact", "interactive", "address", "messages"}
  }

  /** The `type` tag a handled selector produces: "contact" yields "contacts". */
  function TagFor(msgType: string): string {
    if msgType == "contact" then "contacts" else msgType
  }

  /** The outer record: the fixed defaults, `to` (which may not be None) and the payload. */
  function Envelope(to: Option<string>, context: Option<Context>, payload: Payload): (r: Result<FreeFormMsg, BuildError>)
    ensures r.Success? <==> to.Some?
    ensures r.Failure? ==> r.error == ValidationError(payload.ModelName(), ["to"])
    ensures r.Success? ==> r.value == FreeFormMsg("whatsapp", "individual", false, to.value, context, payload)
  {
    if to.None? then Failure(ValidationError(payload.ModelName(), ["to"]))
    else Success(FreeFormMsg(to := to.value, context := context, payload := payload))
  }

  /** A built message keeps the envelope defaults and carries the caller's `to`. */
  predicate Addressed(a: FreeFormArgs, m: FreeFormMsg) {
    m.messagingProduct == "whatsapp" && m.recipientType == "individual" && !m.previewUrl && a.to == Some(m.to)
  }

  function TextMessage(a: FreeFormArgs): (r: Result<FreeFormMsg, BuildError>)
    ensures r.Success? ==> Addressed(a, r.value) && r.value.payload.Type() == Enums.FreeFormMsgType.Text
    ensures a.to.None? ==> r.Failure?
  {
    if a.text.None? then Failure(ValueError("Text cannot be empty"))
    else Envelope(a.to, a.context, TextPayload(Text(a.previewUrl, a.text.value)))
  }

  function ReactionMessage(a: FreeFormArgs): (r: Result<FreeFormMsg, BuildError>)
    ensures r.Success? ==> Addressed(a, r.value) && r.value.payload.Type() == Enums.FreeFormMsgType.Reaction
    ensures a.to.None? ==> r.Failure?
  {
    if a.emoji.None? then Failure(ValueError("Emoji cannot be empty"))
    else if a.msgId.None? then Failure(ValueError("Message ID cannot be empty"))
    else Envelope(a.to, None, ReactionPayload(Reaction(a.msgId.value, a.emoji.value)))
  }

  /** A media message; `checked` says whether the selector refuses a missing link and id. */
  function MediaMessage(a: FreeFormArgs, k: Enums.MediaMsgType, checked: bool): (r: Result<FreeFormMsg, BuildError>)
    ensures r.Success? ==> Addressed(a, r.value) && r.value.payload.Type() == Enums.MediaAsFreeForm(k)
    ensures a.to.None? ==> r.Failure?
  {
    if checked && a.mediaLink.None? && a.mediaId.None? then Failure(ValueError(MediaMissing))
    else Envelope(a.to, a.context, MediaPayload(k, Media(a.mediaLink, a.mediaId)))
  }

  /** The `str` fields of a location that were given None. */
  function MissingCoordinates(a: FreeFormArgs): seq<string> {
    (if a.longitude.None? then ["longitude"] else []) + (if a.latitude.None? then ["latitude"] else [])
  }

  function LocationMessage(a: FreeFormArgs): (r: Result<FreeFormMsg, BuildError>)
    ensures r.Success? ==> Addressed(a, r.value) && r.value.payload.Type() == Enums.FreeFormMsgType.Location
    ensures a.to.None? ==> r.Failure?
  {
    if a.longitude.None? || a.latitude.None? then Failure(ValidationError("Location", MissingCoordinates(a)))
    else
      var location := Location(LongitudeText(a.longitude.value), a.latitude, a.locationName, a.locationAddress);
      Envelope(a.to, a.context, LocationPayload(location))
  }

  function ContactMessage(a: FreeFormArgs): (r: Result<FreeFormMsg, BuildError>)
    ensures r.Success? ==> Addressed(a, r.value) && r.value.payload.Type() == Enums.FreeFormMsgType.Contacts
    ensures a.to.None? ==> r.Failure?
  {
    Envelope(a.to, None, ContactsPayload(a.contacts))
  }

  function InteractiveMessage(a: FreeFormArgs): (r: Result<FreeFormMsg, BuildError>)
    ensures r.Success? ==> Addressed(a, r.value) && r.value.payload.Type() == Enums.FreeFormMsgType.Interactive
    ensures a.to.None? ==> r.Failure?
  {
    if a.action.None? then Failure(ValueError("Action cannot be empty"))
    else if a.body.None? then Failure(ValueError("Body cannot be empty"))
    else
      match a.action.value
      case Known(action) =>
        Envelope(a.to, a.context, InteractivePayload(Interactive(a.header, a.body.value, a.footer, action)))
      case Foreign(_) => Failure(ValueError("Invalid action type"))
  }

  /** The record `send_free_form_message` builds, or why it fails. */
  function BuildFreeFormMessage(a: FreeFormArgs): (r: Result<FreeFormMsg, BuildError>)
    ensures r.Success? ==> r.value.messagingProduct == "whatsapp" && r.value.recipientType == "individual"
    ensures r.Success? ==> !r.value.previewUrl && a.to == Some(r.value.to)
    ensures r.Success? ==> Handled(a.msgType) && r.value.payload.Type().Value() == TagFor(a.msgType)
    ensures !Handled(a.msgType) ==> r == Failure(ValueError("Invalid msg_type"))
    ensures a.to.None? ==> r.Failure?
  {
    if a.msgType == "text" then TextMessage(a)
    else if a.msgType == "reaction" then ReactionMessage(a)
    else if a.msgType == "image" then MediaMessage(a, Enums.MediaMsgType.Image, true)
    else if a.msgType == "video" then MediaMessage(a, Enums.MediaMsgType.Video, true)
    else if a.msgType == "audio" then MediaMessage(a, Enums.MediaMsgType.Audio, false)
    else if a.msgType == "document" then MediaMessage(a, Enums.MediaMsgType.Document, false)
    else if a.msgType == "sticker" then MediaMessage(a, Enums.MediaMsgType.Sticker, false)
    else if a.msgType == "location" then LocationMessage(a)
    else if a.msgType == "contact" then ContactMessage(a)
    else if a.msgType == "interactive" then InteractiveMessage(a)
    else if a.msgType == "address" || a.msgType == "messages" then
      Failure(AttributeError("'dict' object has no attribute 'model_dump'"))
    else
      Failure(ValueError("Invalid msg_type"))
  }

  /**
   * The document handed to `post`: the dump of the built record, to
   * "/messages".  The dump reads back as the record, and its `type` is the
   * record's tag.
   */
  function FreeFormRequest(a: FreeFormArgs): (r: Result<Outgoing, BuildError>)
    ensures r.Success? <==> BuildFreeFormMessage(a).Success?
    ensures r.Failure? ==> r.error == BuildFreeFormMessage(a).error
    ensures r.Success? ==> r.value.path == "/messages"
    ensures r.Success? ==> DecodeFreeForm(r.value.params) == Some(BuildFreeFormMessage(a).value)
    ensures r.Success? ==> GetStr(r.value.params, "type") == Some(TagFor(a.msgType))
  {
    match BuildFreeFormMessage(a)
    case Failure(e) => Failure(e)
    case Success(m) =>
      FreeFormRoundTrip(m);
      EnvelopeFieldsRead(m);
      Success(Outgoing("/messages", DumpFreeForm(m)))
  }

  // -------------------------------------------------------------------------
  // What each selector does.
  // -------------------------------------------------------------------------

  /** "text": only a None text is refused, an empty one is accepted; preview_url goes to the inner record. */
  lemma TextSelector(a: FreeFormArgs)
    requires a.msgType == "text"
    ensures var r := BuildFreeFormMessage(a);
      && (a.text.None? ==> r == Failure(ValueError("Text cannot be empty")))
      && (a.text.Some? ==> (r.Success? <==> a.to.Some?))
      && (r.Success? ==> r.value.payload == TextPayload(Text(a.previewUrl, a.text.value)) && r.value.context == a.context)
  {
  }

  /** "reaction": the emoji is checked before the message id, and no reply context is attached. */
  lemma ReactionSelector(a: FreeFormArgs)
    requires a.msgType == "reaction"
    ensures var r := BuildFreeFormMessage(a);
      && (a.emoji.None? ==> r == Failure(ValueError("Emoji cannot be empty")))
      && (a.emoji.Some? && a.msgId.None? ==> r == Failure(ValueError("Message ID cannot be empty")))
      && (a.emoji.Some? && a.msgId.Some? ==> (r.Success? <==> a.to.Some?))
      && (r.Success? ==> r.value.payload == ReactionPayload(Reaction(a.msgId.value, a.emoji.value)) && r.value.context.None?)
  {
  }

  /** "image" and "video" refuse only when both link and id are None. */
  lemma CheckedMediaSelector(a: FreeFormArgs)
    requires a.msgType == "image" || a.msgType == "video"
    ensures var r := BuildFreeFormMessage(a);
      && (r == Failure(ValueError(MediaMissing)) <==> a.mediaLink.None? && a.mediaId.None?)
      && ((a.mediaLink.Some? || a.mediaId.Some?) ==> (r.Success? <==> a.to.Some?))
      && (r.Success? ==> r.value.payload.media == Media(a.mediaLink, a.mediaId) && r.value.context == a.context)
  {
  }

  /** "audio", "document" and "sticker" never refuse a missing link and id. */
  lemma UncheckedMediaSelector(a: FreeFormArgs)
    requires a.msgType == "audio" || a.msgType == "document" || a.msgType == "sticker"
    ensures var r := BuildFreeFormMessage(a);
      && (r.Success? <==> a.to.Some?)
      && (r.Success? ==> r.value.payload.MediaPayload? && r.value.payload.media == Media(a.mediaLink, a.mediaId))
      && (r.Success? ==> r.value.context == a.context)
  {
  }

  /** "location" copies its four arguments; the record refuses a None longitude or latitude. */
  lemma LocationSelector(a: FreeFormArgs)
    requires a.msgType == "location"
    ensures var r := BuildFreeFormMessage(a);
      && (r.Success? <==> a.to.Some? && a.longitude.Some? && a.latitude.Some?)
      && (a.longitude.None? || a.latitude.None? ==> r.Failure? && r.error.ValidationError? && r.error.model == "Location")
      && (r.Success? ==>
            r.value.payload.location == Location(LongitudeText(a.longitude.value), a.latitude, a.locationName, a.locationAddress))
      && (r.Success? ==> r.value.context == a.context)
  {
  }

  /** "contact" passes the list through unchecked, without a reply context, under the tag "contacts". */
  lemma ContactSelector(a: FreeFormArgs)
    requires a.msgType == "contact"
    ensures var r := BuildFreeFormMessage(a);
      && (r.Success? <==> a.to.Some?)
      && (r.Success? ==> r.value.payload == ContactsPayload(a.contacts) && r.value.context.None?)
      && (r.Success? ==> r.value.payload.Type().Value() == "contacts" != a.msgType)
  {
  }

  /**
   * "interactive": the action is checked before the body; then the exact
   * kind of the action picks the record, and any other object is refused.
   */
  lemma InteractiveSelector(a: FreeFormArgs)
    requires a.msgType == "interactive"
    ensures var r := BuildFreeFormMessage(a);
      && (a.action.None? ==> r == Failure(ValueError("Action cannot be empty")))
      && (a.action.Some? && a.body.None? ==> r == Failure(ValueError("Body cannot be empty")))
      && (a.action.Some? && a.action.value.Foreign? && a.body.Some? ==> r == Failure(ValueError("Invalid action type")))
      && (a.action.Some? && a.action.value.Known? && a.body.Some? ==> (r.Success? <==> a.to.Some?))
      && (r.Success? ==>
            r.value.payload == InteractivePayload(Interactive(a.header, a.body.value, a.footer, a.action.value.action)))
      && (r.Success? ==> r.value.context == a.context)
  {
  }

  /** An interactive message's inner tag follows the kind of its action. */
  lemma InteractiveTagFollowsAction(a: FreeFormArgs)
    requires a.msgType == "interactive" && BuildFreeFormMessage(a).Success?
    ensures var i := BuildFreeFormMessage(a).value.payload.interactive;
      && (i.action.ListAction? <==> i.action.Type().Value() == "list")
      && (i.action.ButtonAction? <==> i.action.Type().Value() == "button")
      && (i.action.CtaUrlAction? <==> i.action.Type().Value() == "cta_url")
  {
  }

  /** "address" and "messages" build nothing, so nothing is posted. */
  lemma NoPayloadSelectors(a: FreeFormArgs)
    requires a.msgType == "address" || a.msgType == "messages"
    ensures BuildFreeFormMessage(a).Failure? && BuildFreeFormMessage(a).error.AttributeError?
  {
  }

  /** Free-form kinds without a branch of their own are refused, among them "contacts" and "media". */
  lemma {:induction false} UnhandledKinds(a: FreeFormArgs)
    requires a.msgType == Enums.FreeFormMsgType.Contacts.Value() || a.msgType == Enums.FreeFormMsgType.Media.Value()
    ensures BuildFreeFormMessage(a) == Failure(ValueError("Invalid msg_type"))
  {
    assert !Handled(a.msgType);
  }

  // -------------------------------------------------------------------------
  // Template messages.
  // -------------------------------------------------------------------------

  /** The components given, in header, body, footer order. */
  function Candidates(header: Option<Template.Header>, body: Option<Template.Body>, footer: Option<Template.Footer>)
    : seq<Option<Template.Component>>
  {
    [ if header.Some? then Some(Template.HeaderComponent(header.value)) else None,
      if body.Some? then Some(Template.BodyComponent(body.value)) else None,
      if footer.Some? then Some(Template.FooterComponent(footer.value)) else None ]
  }

  /** The present entries of a list of optional values, in their order. */
  function Present<T>(os: seq<Option<T>>): (r: seq<T>)
    ensures |r| <= |os|
  {
    if os == [] then []
    else (if os[0].Some? then [os[0].value] else []) + Present(os[1..])
  }

  /** The present entries of three optional values. */
  lemma {:induction false} PresentOfThree<T>(x: Option<T>, y: Option<T>, z: Option<T>)
    ensures Present([x, y, z]) ==
      (if x.Some? then [x.value] else []) + (if y.Some? then [y.value] else []) + (if z.Some? then [z.value] else [])
  {
    assert [x, y, z][1..] == [y, z];
    assert [y, z][1..] == [z];
    assert [z][1..] == [];
    assert Present([z]) == (if z.Some? then [z.value] else []) + Present<T>([]);
    assert Present([y, z]) == (if y.Some? then [y.value] else []) + Present([z]);
  }

  /** Position of a component in the header, body, footer order. */
  function Position(c: Template.Component): nat {
    match c
    case HeaderComponent(_) => 0
    case BodyComponent(_) => 1
    case FooterComponent(_) => 2
  }

  predicate InOrder(cs: seq<Template.Component>) {
    forall i, j :: 0 <= i < j < |cs| ==> Position(cs[i]) < Position(cs[j])
  }

  /**
   * The list of present components keeps header, body, footer order, holds
   * exactly the components given and has one entry per component given.
   */
  lemma {:induction false} PresentComponents(header: Option<Template.Header>, body: Option<Template.Body>, footer: Option<Template.Footer>)
    ensures var cs := Present(Candidates(header, body, footer));
      && InOrder(cs)
      && |cs| == (if header.Some? then 1 else 0) + (if body.Some? then 1 else 0) + (if footer.Some? then 1 else 0)
      && (forall c :: c in cs <==>
            (header.Some? && c == Template.HeaderComponent(header.value))
            || (body.Some? && c == Template.BodyComponent(body.value))
            || (footer.Some? && c == Template.FooterComponent(footer.value)))
  {
    var os := Candidates(header, body, footer);
    PresentOfThree(os[0], os[1], os[2]);
  }

  /** `send_template_message` up to the post: components appended one by one. */
  method BuildTemplateMessage(name: string, to: string, language: string := "en",
                              header: Option<Template.Header> := None,
                              body: Option<Template.Body> := None,
                              footer: Option<Template.Footer> := None,
                              recipientType: string := "individual")
    returns (msg: Template.TemplateMsg)
    ensures msg.messagingProduct == "whatsapp" && msg.kind == "template"
    ensures msg.to == to && msg.recipientType == recipientType
    ensures msg.template.name == name && msg.template.language.code == language
    ensures msg.template.components == Present(Candidates(header, body, footer))
  {
    var components: seq<Template.Component> := [];
    if header.Some? {
      components := components + [Template.HeaderComponent(header.value)];
    }
    if body.Some? {
      components := components + [Template.BodyComponent(body.value)];
    }
    if footer.Some? {
      components := components + [Template.FooterComponent(footer.value)];
    }
    var os := Candidates(header, body, footer);
    PresentOfThree(os[0], os[1], os[2]);
    var template := Template.Template(name, Template.Language(language), components);
    msg := Template.TemplateMsg(to := to, template := template, recipientType := recipientType);
  }

  /** The document `send_template_message` hands to `post`, to "/messages". */
  method TemplateRequest(name: string, to: string, language: string := "en",
                         header: Option<Template.Header> := None,
                         body: Option<Template.Body> := None,
                         footer: Option<Template.Footer> := None,
                         recipientType: string := "individual")
    returns (out: Outgoing)
    ensures out.path == "/messages"
    ensures var m := Template.DecodeTemplateMsg(out.params);
      && m.Some? && m.value.messagingProduct == "whatsapp" && m.value.kind == "template"
      && m.value.to == to && m.value.recipientType == recipientType
      && m.value.template.name == name && m.value.template.language.code == language
      && m.value.template.components == Present(Candidates(header, body, footer))
  {
    var msg := BuildTemplateMessage(name, to, language, header, body, footer, recipientType);
    Template.TemplateMsgRoundTrip(msg);
    out := Outgoing("/messages", Template.DumpTemplateMsg(msg));
  }

  // -------------------------------------------------------------------------
  // The builder bound to a client.
  // -------------------------------------------------------------------------

  class Whatsapp {
    const client: Client.Client

    constructor(client: Client.Client)
      ensures this.client == client
    {
      this.client := client;
    }

    /**
     * `send_free_form_message`: a message that cannot be built raises before
     * anything is sent and leaves the client untouched; one that can is
     * posted as JSON to "/messages" with no host argument.
     */
    method SendFreeFormMessage(a: FreeFormArgs, response: Client.HttpResponse)
      returns (r: Result<(Client.Request, Client.Outcome), BuildError>)
      modifies client`headers
      ensures FreeFormRequest(a).Failure? ==>
        r == Failure(FreeFormRequest(a).error) && client.headers == old(client.headers)
      ensures FreeFormRequest(a).Success? ==> r.Success?
      ensures r.Success? ==>
        && r.value.0 == Client.Request(Client.Verb.Post,
                                       Client.PostUrl(client.scheme, client.host, client.version, client.phoneNumberId, None, Some("/messages")),
                                       client.headers, None, Client.JsonBody(FreeFormRequest(a).value.params), client.timeout)
        && client.headers == Client.PostHeaders(old(client.headers), Client.BearerToken(client.apiToken), true)
        && r.value.1 == Client.ProcessResponse(None, response)
    {
      var request := FreeFormRequest(a);
      if request.Failure? {
        return Failure(request.error);
      }
      var sent, outcome := client.Post(response, path := Some(request.value.path), params := request.value.params);
      r := Success((sent, outcome));
    }

    /** `send_template_message`: the assembled template posted as JSON to "/messages". */
    method SendTemplateMessage(response: Client.HttpResponse, name: string, to: string, language: string := "en",
                               header: Option<Template.Header> := None,
                               body: Option<Template.Body> := None,
                               footer: Option<Template.Footer> := None,
                               recipientType: string := "individual")
      returns (sent: Client.Request, outcome: Client.Outcome)
      modifies client`headers
      ensures sent.verb == Client.Verb.Post
      ensures sent.url == Client.PostUrl(client.scheme, client.host, client.version, client.phoneNumberId, None, Some("/messages"))
      ensures sent.headers == client.headers && sent.query.None? && sent.timeout == client.timeout
      ensures sent.body.JsonBody?
      ensures var m := Template.DecodeTemplateMsg(sent.body.json);
        && m.Some? && m.value.messagingProduct == "whatsapp" && m.value.kind == "template"
        && m.value.to == to && m.value.recipientType == recipientType
        && m.value.template.name == name && m.value.template.language.code == language
        && m.value.template.components == Present(Candidates(header, body, footer))
      ensures client.headers == Client.PostHeaders(old(client.headers), Client.BearerToken(client.apiToken), true)
      ensures outcome == Client.ProcessResponse(None, response)
    {
      var out := TemplateRequest(name, to, language, header, body, footer, recipientType);
      sent, outcome := client.Post(response, path := Some(out.path), params := out.params);
    }
  }
}
