/**
 * The free-form message records: a common envelope (`WhatsappFreeFormMsg`)
 * around one kind-specific payload, with the defaults the records declare,
 * their JSON dump (what `model_dump()` hands to the HTTP layer) and a
 * decoder that reads a dump back.
 *
 * A record field called `type` in the SDK is called `kind` here.
 */
module RequestSchema {
  import opened Wrappers
  import opened Json
  import Enums

  // -------------------------------------------------------------------------
  // Reply context, text, reaction, media
  // -------------------------------------------------------------------------

  datatype Context = Context(messageId: string)

  datatype Text = Text(previewUrl: bool := false, body: string)

  datatype Reaction = Reaction(messageId: string, emoji: string)

  /** Neither field is required by the record itself. */
  datatype Media = Media(link: Option<string> := None, id: Option<string> := None)

  // -------------------------------------------------------------------------
  // Location.  `longitude: str = None,` has a trailing comma, so its default
  // is the one-element tuple `(None,)`, which dumps as `[null]`.
  // -------------------------------------------------------------------------

  datatype Longitude = LongitudeText(text: string) | NoneTuple

  datatype Location = Location(
    longitude: Longitude := NoneTuple,
    latitude: Option<string> := None,
    name: Option<string> := None,
    address: Option<string> := None)

  // -------------------------------------------------------------------------
  // Contacts: only `name` and, inside it, `formatted_name` are required.
  // -------------------------------------------------------------------------

  datatype Name = Name(
    formattedName: string,
    firstName: Option<string> := None,
    lastName: Option<string> := None,
    middleName: Option<string> := None,
    suffix: Option<string> := None,
    prefix: Option<string> := None)

  datatype Phone = Phone(phone: Option<string> := None, kind: Option<string> := None)

  datatype Url = Url(url: Option<string> := None, kind: Option<string> := None)

  datatype Organization = Organization(
    company: Option<string> := None,
    department: Option<string> := None,
    title: Option<string> := None)

  datatype Email = Email(email: Option<string> := None, kind: Option<string> := None)

  datatype Address = Address(
    street: Option<string> := None,
    city: Option<string> := None,
    state: Option<string> := None,
    zip: Option<string> := None,
    country: Option<string> := None,
    countryCode: Option<string> := None,
    kind: Option<Enums.AddressType> := None)

  datatype Contact = Contact(
    addresses: Option<seq<Address>> := None,
    birthday: Option<string> := None,
    emails: Option<seq<Email>> := None,
    name: Name,
    org: Option<Organization> := None,
    phones: Option<seq<Phone>> := None,
    urls: Option<seq<Url>> := None)

  // -------------------------------------------------------------------------
  // Interactive messages.  Each of the three interactive record classes fixes
  // both its `type` tag and the class of its action, so the tag is a function
  // of the action here and the two cannot disagree.
  // -------------------------------------------------------------------------

  datatype Header = Header(kind: string := "text", text: string)

  datatype Body = Body(text: string)

  datatype Footer = Footer(text: string)

  datatype Row = Row(id: Option<string> := None, title: Option<string> := None, description: Option<string> := None)

  datatype Section = Section(title: string, rows: seq<Row>)

  datatype Reply = Reply(id: string, title: Option<string> := None)

  datatype ReplyButton = ReplyButton(kind: string := "reply", reply: Reply)

  datatype CtaParameters = CtaParameters(displayText: string, url: string)

  datatype Action =
    | ListAction(button: string, sections: seq<Section>)
    | ButtonAction(buttons: seq<ReplyButton>)
    | CtaUrlAction(name: string := "cta_url", parameters: CtaParameters)
  {
    /** The inner `type` of the interactive record that holds this action. */
    function Type(): Enums.InteractiveMsgType {
      match this
      case ListAction(_, _) => Enums.InteractiveMsgType.List
      case ButtonAction(_) => Enums.InteractiveMsgType.Button
      case CtaUrlAction(_, _) => Enums.InteractiveMsgType.CtaUrl
    }
  }

  datatype Interactive = Interactive(
    header: Option<Header> := None,
    body: Body,
    footer: Option<Footer> := None,
    action: Action)

  // -------------------------------------------------------------------------
  // The free-form message: envelope plus one payload.
  // -------------------------------------------------------------------------

  datatype Payload =
    | TextPayload(text: Text)
    | ReactionPayload(reaction: Reaction)
    | MediaPayload(mediaType: Enums.MediaMsgType, media: Media)
    | LocationPayload(location: Location)
    | ContactsPayload(contacts: seq<Contact>)
    | InteractivePayload(interactive: Interactive)
  {
    /** The fixed `type` tag of the record class carrying this payload. */
    function Type(): Enums.FreeFormMsgType {
      match this
      case TextPayload(_) => Enums.FreeFormMsgType.Text
      case ReactionPayload(_) => Enums.FreeFormMsgType.Reaction
      case MediaPayload(k, _) => Enums.MediaAsFreeForm(k)
      case LocationPayload(_) => Enums.FreeFormMsgType.Location
      case ContactsPayload(_) => Enums.FreeFormMsgType.Contacts
      case InteractivePayload(_) => Enums.FreeFormMsgType.Interactive
    }

    /** The name of the record class, as reported by a validation error. */
    function ModelName(): string {
      match this
      case TextPayload(_) => "WhatsappFreeFormTextMsg"
      case ReactionPayload(_) => "WhatsappFreeFormReactionMsg"
      case MediaPayload(k, _) =>
        (match k
         case Image => "WhatsappFreeFormMediaImageMsg"
         case Video => "WhatsappFreeFormMediaVideoMsg"
         case Audio => "WhatsappFreeFormMediaAudioMsg"
         case Document => "WhatsappFreeFormMediaDocumentMsg"
         case Sticker => "WhatsappFreeFormMediaStickerMsg")
      case LocationPayload(_) => "WhatsappFreeFormLocationMsg"
      case ContactsPayload(_) => "WhatsappFreeFormContactsMsg"
      case InteractivePayload(i) =>
        (match i.action
         case ListAction(_, _) => "FreeFormInteractiveListMsg"
         case ButtonAction(_) => "FreeFormInteractiveReplyButtonMsg"
         case CtaUrlAction(_, _) => "FreeFormInteractiveCtaButtonMsg")
    }
  }

  datatype FreeFormMsg = FreeFormMsg(
    messagingProduct: string := "whatsapp",
    recipientType: string := "individual",
    previewUrl: bool := false,
    to: string,
    context: Option<Context> := None,
    payload: Payload)

  // -------------------------------------------------------------------------
  // model_dump(): every field is emitted, None as null, enums as their strings.
  // -------------------------------------------------------------------------

  function DumpContext(c: Context): Json {
    JObject(map["message_id" := JStr(c.messageId)])
  }

  function DumpText(t: Text): Json {
    JObject(map["preview_url" := JBool(t.previewUrl), "body" := JStr(t.body)])
  }

  function DumpReaction(r: Reaction): Json {
    JObject(map["message_id" := JStr(r.messageId), "emoji" := JStr(r.emoji)])
  }

  function DumpMedia(m: Media): Json {
    JObject(map["link" := OptStr(m.link), "id" := OptStr(m.id)])
  }

  function DumpLongitude(l: Longitude): Json {
    match l
    case LongitudeText(s) => JStr(s)
    case NoneTuple => JArray([JNull])
  }

  function DumpLocation(l: Location): Json {
    JObject(map[
      "longitude" := DumpLongitude(l.longitude),
      "latitude" := OptStr(l.latitude),
      "name" := OptStr(l.name),
      "address" := OptStr(l.address)])
  }

  function DumpName(n: Name): Json {
    JObject(map[
      "formatted_name" := JStr(n.formattedName),
      "first_name" := OptStr(n.firstName),
      "last_name" := OptStr(n.lastName),
      "middle_name" := OptStr(n.middleName),
      "suffix" := OptStr(n.suffix),
      "prefix" := OptStr(n.prefix)])
  }

  function DumpPhone(p: Phone): Json {
    JObject(map["phone" := OptStr(p.phone), "type" := OptStr(p.kind)])
  }

  function DumpUrl(u: Url): Json {
    JObject(map["url" := OptStr(u.url), "type" := OptStr(u.kind)])
  }

  function DumpOrganization(o: Organization): Json {
    JObject(map["company" := OptStr(o.company), "department" := OptStr(o.department), "title" := OptStr(o.title)])
  }

  function DumpEmail(e: Email): Json {
    JObject(map["email" := OptStr(e.email), "type" := OptStr(e.kind)])
  }

  function DumpAddressType(t: Enums.AddressType): Json {
    JStr(t.Value())
  }

  function DumpAddress(a: Address): Json {
    JObject(map[
      "street" := OptStr(a.street),
      "city" := OptStr(a.city),
      "state" := OptStr(a.state),
      "zip" := OptStr(a.zip),
      "country" := OptStr(a.country),
      "country_code" := OptStr(a.countryCode),
      "type" := OptObj(a.kind, DumpAddressType)])
  }

  function DumpAddresses(xs: seq<Address>): Json { List(xs, DumpAddress) }
  function DumpEmails(xs: seq<Email>): Json { List(xs, DumpEmail) }
  function DumpPhones(xs: seq<Phone>): Json { List(xs, DumpPhone) }
  function DumpUrls(xs: seq<Url>): Json { List(xs, DumpUrl) }

  function DumpContact(c: Contact): Json {
    JObject(map[
      "addresses" := OptObj(c.addresses, DumpAddresses),
      "birthday" := OptStr(c.birthday),
      "emails" := OptObj(c.emails, DumpEmails),
      "name" := DumpName(c.name),
      "org" := OptObj(c.org, DumpOrganization),
      "phones" := OptObj(c.phones, DumpPhones),
      "urls" := OptObj(c.urls, DumpUrls)])
  }

  function DumpContacts(xs: seq<Contact>): Json { List(xs, DumpContact) }

  function DumpHeader(h: Header): Json {
    JObject(map["type" := JStr(h.kind), "text" := JStr(h.text)])
  }

  function DumpBody(b: Body): Json {
    JObject(map["text" := JStr(b.text)])
  }

  function DumpFooter(f: Footer): Json {
    JObject(map["text" := JStr(f.text)])
  }

  function DumpRow(r: Row): Json {
    JObject(map["id" := OptStr(r.id), "title" := OptStr(r.title), "description" := OptStr(r.description)])
  }

  function DumpSection(s: Section): Json {
    JObject(map["title" := JStr(s.title), "rows" := List(s.rows, DumpRow)])
  }

  function DumpReply(r: Reply): Json {
    JObject(map["id" := JStr(r.id), "title" := OptStr(r.title)])
  }

  function DumpReplyButton(b: ReplyButton): Json {
    JObject(map["type" := JStr(b.kind), "reply" := DumpReply(b.reply)])
  }

  function DumpCtaParameters(p: CtaParameters): Json {
    JObject(map["display_text" := JStr(p.displayText), "url" := JStr(p.url)])
  }

  function DumpAction(a: Action): Json {
    match a
    case ListAction(button, sections) =>
      JObject(map["button" := JStr(button), "sections" := List(sections, DumpSection)])
    case ButtonAction(buttons) =>
      JObject(map["buttons" := List(buttons, DumpReplyButton)])
    case CtaUrlAction(name, parameters) =>
      JObject(map["name" := JStr(name), "parameters" := DumpCtaParameters(parameters)])
  }

  function DumpInteractive(i: Interactive): Json {
    JObject(map[
      "header" := OptObj(i.header, DumpHeader),
      "body" := DumpBody(i.body),
      "footer" := OptObj(i.footer, DumpFooter),
      "type" := JStr(i.action.Type().Value()),
      "action" := DumpAction(i.action)])
  }

  /**
   * The payload's field of the message record: its name and its dump.  Every
   * record class names its payload field after its own `type` tag.
   */
  function PayloadField(p: Payload): (f: (string, Json))
    ensures f.0 == p.Type().Value()
  {
    match p
    case TextPayload(t) => ("text", DumpText(t))
    case ReactionPayload(r) => ("reaction", DumpReaction(r))
    case MediaPayload(k, m) => (k.Value(), DumpMedia(m))
    case LocationPayload(l) => ("location", DumpLocation(l))
    case ContactsPayload(cs) => ("contacts", DumpContacts(cs))
    case InteractivePayload(i) => ("interactive", DumpInteractive(i))
  }

  function DumpFreeForm(m: FreeFormMsg): Json {
    var f := PayloadField(m.payload);
    JObject(map[
      "messaging_product" := JStr(m.messagingProduct),
      "recipient_type" := JStr(m.recipientType),
      "preview_url" := JBool(m.previewUrl),
      "to" := JStr(m.to),
      "context" := OptObj(m.context, DumpContext),
      "type" := JStr(m.payload.Type().Value()),
      f.0 := f.1])
  }

  // -------------------------------------------------------------------------
  // Reading a dump back.
  // -------------------------------------------------------------------------

  function DecodeContext(j: Json): Option<Context> {
    var id :- GetStr(j, "message_id");
    Some(Context(id))
  }

  function DecodeText(j: Json): Option<Text> {
    var preview :- GetBool(j, "preview_url");
    var body :- GetStr(j, "body");
    Some(Text(preview, body))
  }

  function DecodeReaction(j: Json): Option<Reaction> {
    var id :- GetStr(j, "message_id");
    var emoji :- GetStr(j, "emoji");
    Some(Reaction(id, emoji))
  }

  function DecodeMedia(j: Json): Option<Media> {
    var link :- GetOptStr(j, "link");
    var id :- GetOptStr(j, "id");
    Some(Media(link, id))
  }

  function DecodeLongitude(j: Json): Option<Longitude> {
    if j == JArray([JNull]) then Some(NoneTuple)
    else
      var s :- AsStr(j);
      Some(LongitudeText(s))
  }

  function DecodeLocation(j: Json): Option<Location> {
    var longitude :- GetObj(j, "longitude", DecodeLongitude);
    var latitude :- GetOptStr(j, "latitude");
    var name :- GetOptStr(j, "name");
    var address :- GetOptStr(j, "address");
    Some(Location(longitude, latitude, name, address))
  }

  function DecodeName(j: Json): Option<Name> {
    var formatted :- GetStr(j, "formatted_name");
    var first :- GetOptStr(j, "first_name");
    var last :- GetOptStr(j, "last_name");
    var middle :- GetOptStr(j, "middle_name");
    var suffix :- GetOptStr(j, "suffix");
    var prefix :- GetOptStr(j, "prefix");
    Some(Name(formatted, first, last, middle, suffix, prefix))
  }

  function DecodePhone(j: Json): Option<Phone> {
    var phone :- GetOptStr(j, "phone");
    var kind :- GetOptStr(j, "type");
    Some(Phone(phone, kind))
  }

  function DecodeUrl(j: Json): Option<Url> {
    var url :- GetOptStr(j, "url");
    var kind :- GetOptStr(j, "type");
    Some(Url(url, kind))
  }

  function DecodeOrganization(j: Json): Option<Organization> {
    var company :- GetOptStr(j, "company");
    var department :- GetOptStr(j, "department");
    var title :- GetOptStr(j, "title");
    Some(Organization(company, department, title))
  }

  function DecodeEmail(j: Json): Option<Email> {
    var email :- GetOptStr(j, "email");
    var kind :- GetOptStr(j, "type");
    Some(Email(email, kind))
  }

  function DecodeAddressType(j: Json): Option<Enums.AddressType> {
    var s :- AsStr(j);
    Enums.ParseAddressType(s)
  }

  function DecodeAddress(j: Json): Option<Address> {
    var street :- GetOptStr(j, "street");
    var city :- GetOptStr(j, "city");
    var state :- GetOptStr(j, "state");
    var zip :- GetOptStr(j, "zip");
    var country :- GetOptStr(j, "country");
    var code :- GetOptStr(j, "country_code");
    var kind :- GetOpt(j, "type", DecodeAddressType);
    Some(Address(street, city, state, zip, country, code, kind))
  }

  function DecodeAddresses(j: Json): Option<seq<Address>> { AsList(j, DecodeAddress) }
  function DecodeEmails(j: Json): Option<seq<Email>> { AsList(j, DecodeEmail) }
  function DecodePhones(j: Json): Option<seq<Phone>> { AsList(j, DecodePhone) }
  function DecodeUrls(j: Json): Option<seq<Url>> { AsList(j, DecodeUrl) }

  function DecodeContact(j: Json): Option<Contact> {
    var addresses :- GetOpt(j, "addresses", DecodeAddresses);
    var birthday :- GetOptStr(j, "birthday");
    var emails :- GetOpt(j, "emails", DecodeEmails);
    var name :- GetObj(j, "name", DecodeName);
    var org :- GetOpt(j, "org", DecodeOrganization);
    var phones :- GetOpt(j, "phones", DecodePhones);
    var urls :- GetOpt(j, "urls", DecodeUrls);
    Some(Contact(addresses, birthday, emails, name, org, phones, urls))
  }

  function DecodeContacts(j: Json): Option<seq<Contact>> { AsList(j, DecodeContact) }

  function DecodeHeader(j: Json): Option<Header> {
    var kind :- GetStr(j, "type");
    var text :- GetStr(j, "text");
    Some(Header(kind, text))
  }

  function DecodeBody(j: Json): Option<Body> {
    var text :- GetStr(j, "text");
    Some(Body(text))
  }

  function DecodeFooter(j: Json): Option<Footer> {
    var text :- GetStr(j, "text");
    Some(Footer(text))
  }

  function DecodeRow(j: Json): Option<Row> {
    var id :- GetOptStr(j, "id");
    var title :- GetOptStr(j, "title");
    var description :- GetOptStr(j, "description");
    Some(Row(id, title, description))
  }

  function DecodeSection(j: Json): Option<Section> {
    var title :- GetStr(j, "title");
    var rows :- GetList(j, "rows", DecodeRow);
    Some(Section(title, rows))
  }

  function DecodeReply(j: Json): Option<Reply> {
    var id :- GetStr(j, "id");
    var title :- GetOptStr(j, "title");
    Some(Reply(id, title))
  }

  function DecodeReplyButton(j: Json): Option<ReplyButton> {
    var kind :- GetStr(j, "type");
    var reply :- GetObj(j, "reply", DecodeReply);
    Some(ReplyButton(kind, reply))
  }

  function DecodeCtaParameters(j: Json): Option<CtaParameters> {
    var text :- GetStr(j, "display_text");
    var url :- GetStr(j, "url");
    Some(CtaParameters(text, url))
  }

  /** The action's shape is chosen by the interactive record's `type` tag. */
  function DecodeAction(j: Json, t: Enums.InteractiveMsgType): (r: Option<Action>)
    ensures r.Some? ==> r.value.Type() == t
  {
    match t
    case List =>
      var button :- GetStr(j, "button");
      var sections :- GetList(j, "sections", DecodeSection);
      Some(ListAction(button, sections))
    case Button =>
      var buttons :- GetList(j, "buttons", DecodeReplyButton);
      Some(ButtonAction(buttons))
    case CtaUrl =>
      var name :- GetStr(j, "name");
      var parameters :- GetObj(j, "parameters", DecodeCtaParameters);
      Some(CtaUrlAction(name, parameters))
  }

  function DecodeInteractive(j: Json): Option<Interactive> {
    var header :- GetOpt(j, "header", DecodeHeader);
    var body :- GetObj(j, "body", DecodeBody);
    var footer :- GetOpt(j, "footer", DecodeFooter);
    var tag :- GetStr(j, "type");
    var t :- Enums.ParseInteractiveMsgType(tag);
    var actionJson :- Get(j, "action");
    var action :- DecodeAction(actionJson, t);
    Some(Interactive(header, body, footer, action))
  }

  /** The payload stored under the field the `type` tag names. */
  function DecodePayload(j: Json, t: Enums.FreeFormMsgType): (r: Option<Payload>)
    ensures r.Some? ==> r.value.Type() == t
  {
    match t
    case Text =>
      var v :- Get(j, "text");
      var text :- DecodeText(v);
      Some(TextPayload(text))
    case Reaction =>
      var v :- Get(j, "reaction");
      var reaction :- DecodeReaction(v);
      Some(ReactionPayload(reaction))
    case Location =>
      var v :- Get(j, "location");
      var location :- DecodeLocation(v);
      Some(LocationPayload(location))
    case Contacts =>
      var v :- Get(j, "contacts");
      var contacts :- DecodeContacts(v);
      Some(ContactsPayload(contacts))
    case Interactive =>
      var v :- Get(j, "interactive");
      var interactive :- DecodeInteractive(v);
      Some(InteractivePayload(interactive))
    case Image => DecodeMediaPayload(j, Enums.MediaMsgType.Image)
    case Video => DecodeMediaPayload(j, Enums.MediaMsgType.Video)
    case Audio => DecodeMediaPayload(j, Enums.MediaMsgType.Audio)
    case Document => DecodeMediaPayload(j, Enums.MediaMsgType.Document)
    case Sticker => DecodeMediaPayload(j, Enums.MediaMsgType.Sticker)
    case Media => None
    case Address => None
    case Messages => None
  }

  function DecodeMediaPayload(j: Json, k: Enums.MediaMsgType): (r: Option<Payload>)
    ensures r.Some? ==> r.value.Type() == Enums.MediaAsFreeForm(k)
  {
    var v :- Get(j, k.Value());
    var media :- DecodeMedia(v);
    Some(MediaPayload(k, media))
  }

  function DecodeFreeForm(j: Json): Option<FreeFormMsg> {
    var product :- GetStr(j, "messaging_product");
    var recipient :- GetStr(j, "recipient_type");
    var preview :- GetBool(j, "preview_url");
    var to :- GetStr(j, "to");
    var context :- GetOpt(j, "context", DecodeContext);
    var tag :- GetStr(j, "type");
    var t :- Enums.ParseFreeFormMsgType(tag);
    var payload :- DecodePayload(j, t);
    Some(FreeFormMsg(product, recipient, preview, to, context, payload))
  }

  // -------------------------------------------------------------------------
  // Round trips: every dump reads back as the record it came from.
  // -------------------------------------------------------------------------

  lemma ContextRoundTrip(c: Context)
    ensures DecodeContext(DumpContext(c)) == Some(c)
  {
  }

  lemma TextRoundTrip(t: Text)
    ensures DecodeText(DumpText(t)) == Some(t)
  {
  }

  lemma ReactionRoundTrip(r: Reaction)
    ensures DecodeReaction(DumpReaction(r)) == Some(r)
  {
  }

  lemma MediaRoundTrip(m: Media)
    ensures DecodeMedia(DumpMedia(m)) == Some(m)
  {
  }

  lemma LocationRoundTrip(l: Location)
    ensures DecodeLocation(DumpLocation(l)) == Some(l)
  {
  }

  lemma NameFromFields(j: Json, n: Name)
    requires GetStr(j, "formatted_name") == Some(n.formattedName)
    requires GetOptStr(j, "first_name") == Some(n.firstName) && GetOptStr(j, "last_name") == Some(n.lastName)
    requires GetOptStr(j, "middle_name") == Some(n.middleName) && GetOptStr(j, "suffix") == Some(n.suffix)
    requires GetOptStr(j, "prefix") == Some(n.prefix)
    ensures DecodeName(j) == Some(n)
  {
  }

  lemma NameRoundTrip(n: Name)
    ensures DecodeName(DumpName(n)) == Some(n)
  {
    var j := DumpName(n);
    GetStrOf(j, "formatted_name", n.formattedName);
    GetOptStrOf(j, "first_name", n.firstName);
    GetOptStrOf(j, "last_name", n.lastName);
    GetOptStrOf(j, "middle_name", n.middleName);
    GetOptStrOf(j, "suffix", n.suffix);
    GetOptStrOf(j, "prefix", n.prefix);
    NameFromFields(j, n);
  }

  lemma PhoneRoundTrip(p: Phone)
    ensures DecodePhone(DumpPhone(p)) == Some(p)
  {
  }

  lemma UrlRoundTrip(u: Url)
    ensures DecodeUrl(DumpUrl(u)) == Some(u)
  {
  }

  lemma OrganizationRoundTrip(o: Organization)
    ensures DecodeOrganization(DumpOrganization(o)) == Some(o)
  {
  }

  lemma EmailRoundTrip(e: Email)
    ensures DecodeEmail(DumpEmail(e)) == Some(e)
  {
  }

  lemma AddressFromFields(j: Json, a: Address)
    requires GetOptStr(j, "street") == Some(a.street) && GetOptStr(j, "city") == Some(a.city)
    requires GetOptStr(j, "state") == Some(a.state) && GetOptStr(j, "zip") == Some(a.zip)
    requires GetOptStr(j, "country") == Some(a.country) && GetOptStr(j, "country_code") == Some(a.countryCode)
    requires GetOpt(j, "type", DecodeAddressType) == Some(a.kind)
    ensures DecodeAddress(j) == Some(a)
  {
  }

  lemma AddressRoundTrip(a: Address)
    ensures DecodeAddress(DumpAddress(a)) == Some(a)
  {
    var j := DumpAddress(a);
    GetOptStrOf(j, "street", a.street);
    GetOptStrOf(j, "city", a.city);
    GetOptStrOf(j, "state", a.state);
    GetOptStrOf(j, "zip", a.zip);
    GetOptStrOf(j, "country", a.country);
    GetOptStrOf(j, "country_code", a.countryCode);
    if a.kind.Some? {
      Enums.AddressLookup(a.kind.value);
    }
    OptRoundTrip(a.kind, DumpAddressType, DecodeAddressType);
    AddressFromFields(j, a);
  }

  lemma AddressesRoundTrip(xs: seq<Address>)
    ensures DecodeAddresses(DumpAddresses(xs)) == Some(xs)
  {
    forall i | 0 <= i < |xs| ensures DecodeAddress(DumpAddress(xs[i])) == Some(xs[i]) {
      AddressRoundTrip(xs[i]);
    }
    ListRoundTrip(xs, DumpAddress, DecodeAddress);
  }

  lemma EmailsRoundTrip(xs: seq<Email>)
    ensures DecodeEmails(DumpEmails(xs)) == Some(xs)
  {
    forall i | 0 <= i < |xs| ensures DecodeEmail(DumpEmail(xs[i])) == Some(xs[i]) {
      EmailRoundTrip(xs[i]);
    }
    ListRoundTrip(xs, DumpEmail, DecodeEmail);
  }

  lemma PhonesRoundTrip(xs: seq<Phone>)
    ensures DecodePhones(DumpPhones(xs)) == Some(xs)
  {
    forall i | 0 <= i < |xs| ensures DecodePhone(DumpPhone(xs[i])) == Some(xs[i]) {
      PhoneRoundTrip(xs[i]);
    }
    ListRoundTrip(xs, DumpPhone, DecodePhone);
  }

  lemma UrlsRoundTrip(xs: seq<Url>)
    ensures DecodeUrls(DumpUrls(xs)) == Some(xs)
  {
    forall i | 0 <= i < |xs| ensures DecodeUrl(DumpUrl(xs[i])) == Some(xs[i]) {
      UrlRoundTrip(xs[i]);
    }
    ListRoundTrip(xs, DumpUrl, DecodeUrl);
  }

  /** A contact is read field by field. */
  lemma ContactFromFields(j: Json, c: Contact)
    requires GetOpt(j, "addresses", DecodeAddresses) == Some(c.addresses)
    requires GetOptStr(j, "birthday") == Some(c.birthday)
    requires GetOpt(j, "emails", DecodeEmails) == Some(c.emails)
    requires GetObj(j, "name", DecodeName) == Some(c.name)
    requires GetOpt(j, "org", DecodeOrganization) == Some(c.org)
    requires GetOpt(j, "phones", DecodePhones) == Some(c.phones)
    requires GetOpt(j, "urls", DecodeUrls) == Some(c.urls)
    ensures DecodeContact(j) == Some(c)
  {
  }

  lemma ContactAddressesRead(c: Contact)
    ensures GetOpt(DumpContact(c), "addresses", DecodeAddresses) == Some(c.addresses)
  {
    if c.addresses.Some? { AddressesRoundTrip(c.addresses.value); }
    OptRoundTrip(c.addresses, DumpAddresses, DecodeAddresses);
  }

  lemma ContactEmailsRead(c: Contact)
    ensures GetOpt(DumpContact(c), "emails", DecodeEmails) == Some(c.emails)
  {
    if c.emails.Some? { EmailsRoundTrip(c.emails.value); }
    OptRoundTrip(c.emails, DumpEmails, DecodeEmails);
  }

  lemma ContactOrgRead(c: Contact)
    ensures GetOpt(DumpContact(c), "org", DecodeOrganization) == Some(c.org)
  {
    if c.org.Some? { OrganizationRoundTrip(c.org.value); }
    OptRoundTrip(c.org, DumpOrganization, DecodeOrganization);
  }

  lemma ContactPhonesRead(c: Contact)
    ensures GetOpt(DumpContact(c), "phones", DecodePhones) == Some(c.phones)
  {
    if c.phones.Some? { PhonesRoundTrip(c.phones.value); }
    OptRoundTrip(c.phones, DumpPhones, DecodePhones);
  }

  lemma ContactUrlsRead(c: Contact)
    ensures GetOpt(DumpContact(c), "urls", DecodeUrls) == Some(c.urls)
  {
    if c.urls.Some? { UrlsRoundTrip(c.urls.value); }
    OptRoundTrip(c.urls, DumpUrls, DecodeUrls);
  }

  lemma ContactScalarsRead(c: Contact)
    ensures GetOptStr(DumpContact(c), "birthday") == Some(c.birthday)
    ensures GetObj(DumpContact(c), "name", DecodeName) == Some(c.name)
  {
    NameRoundTrip(c.name);
  }

  lemma {:induction false} ContactRoundTrip(c: Contact)
    ensures DecodeContact(DumpContact(c)) == Some(c)
  {
    ContactAddressesRead(c);
    ContactEmailsRead(c);
    ContactOrgRead(c);
    ContactPhonesRead(c);
    ContactUrlsRead(c);
    ContactScalarsRead(c);
    ContactFromFields(DumpContact(c), c);
  }

  lemma ContactsRoundTrip(xs: seq<Contact>)
    ensures DecodeContacts(DumpContacts(xs)) == Some(xs)
  {
    forall i | 0 <= i < |xs| ensures DecodeContact(DumpContact(xs[i])) == Some(xs[i]) {
      ContactRoundTrip(xs[i]);
    }
    ListRoundTrip(xs, DumpContact, DecodeContact);
  }

  lemma SectionRoundTrip(s: Section)
    ensures DecodeSection(DumpSection(s)) == Some(s)
  {
    forall i | 0 <= i < |s.rows| ensures DecodeRow(DumpRow(s.rows[i])) == Some(s.rows[i]) {
    }
    ListRoundTrip(s.rows, DumpRow, DecodeRow);
  }

  lemma ListActionRoundTrip(button: string, sections: seq<Section>)
    ensures DecodeAction(DumpAction(ListAction(button, sections)), Enums.InteractiveMsgType.List) == Some(ListAction(button, sections))
  {
    forall i | 0 <= i < |sections| ensures DecodeSection(DumpSection(sections[i])) == Some(sections[i]) {
      SectionRoundTrip(sections[i]);
    }
    ListRoundTrip(sections, DumpSection, DecodeSection);
  }

  lemma ButtonActionRoundTrip(buttons: seq<ReplyButton>)
    ensures DecodeAction(DumpAction(ButtonAction(buttons)), Enums.InteractiveMsgType.Button) == Some(ButtonAction(buttons))
  {
    forall i | 0 <= i < |buttons| ensures DecodeReplyButton(DumpReplyButton(buttons[i])) == Some(buttons[i]) {
    }
    ListRoundTrip(buttons, DumpReplyButton, DecodeReplyButton);
  }

  lemma ActionRoundTrip(a: Action)
    ensures DecodeAction(DumpAction(a), a.Type()) == Some(a)
  {
    match a
    case ListAction(button, sections) => ListActionRoundTrip(button, sections);
    case ButtonAction(buttons) => ButtonActionRoundTrip(buttons);
    case CtaUrlAction(_, _) =>
  }

  lemma InteractiveFromFields(j: Json, i: Interactive)
    requires GetOpt(j, "header", DecodeHeader) == Some(i.header)
    requires GetObj(j, "body", DecodeBody) == Some(i.body)
    requires GetOpt(j, "footer", DecodeFooter) == Some(i.footer)
    requires GetStr(j, "type") == Some(i.action.Type().Value())
    requires Get(j, "action") == Some(DumpAction(i.action))
    ensures DecodeInteractive(j) == Some(i)
  {
    Enums.InteractiveLookup(i.action.Type());
    ActionRoundTrip(i.action);
  }

  lemma InteractiveRoundTrip(i: Interactive)
    ensures DecodeInteractive(DumpInteractive(i)) == Some(i)
  {
    var j := DumpInteractive(i);
    GetOptOf(j, "header", i.header, DumpHeader, DecodeHeader);
    GetObjOf(j, "body", DumpBody(i.body), DecodeBody, i.body);
    GetOptOf(j, "footer", i.footer, DumpFooter, DecodeFooter);
    GetStrOf(j, "type", i.action.Type().Value());
    InteractiveFromFields(j, i);
  }

  /** Every media tag reads its payload with the media decoder of that kind. */
  lemma MediaTagSelectsMediaDecoder(j: Json, k: Enums.MediaMsgType)
    ensures DecodePayload(j, Enums.MediaAsFreeForm(k)) == DecodeMediaPayload(j, k)
  {
    match k
    case Image =>
    case Video =>
    case Audio =>
    case Document =>
    case Sticker =>
  }

  lemma MediaPayloadRoundTrip(j: Json, k: Enums.MediaMsgType, m: Media)
    requires Get(j, k.Value()) == Some(DumpMedia(m))
    ensures DecodeMediaPayload(j, k) == Some(MediaPayload(k, m))
  {
    MediaRoundTrip(m);
  }

  lemma TextPayloadRoundTrip(j: Json, t: Text)
    requires Get(j, "text") == Some(DumpText(t))
    ensures DecodePayload(j, Enums.FreeFormMsgType.Text) == Some(TextPayload(t))
  {
    TextRoundTrip(t);
  }

  lemma ReactionPayloadRoundTrip(j: Json, r: Reaction)
    requires Get(j, "reaction") == Some(DumpReaction(r))
    ensures DecodePayload(j, Enums.FreeFormMsgType.Reaction) == Some(ReactionPayload(r))
  {
    ReactionRoundTrip(r);
  }

  lemma LocationPayloadRoundTrip(j: Json, l: Location)
    requires Get(j, "location") == Some(DumpLocation(l))
    ensures DecodePayload(j, Enums.FreeFormMsgType.Location) == Some(LocationPayload(l))
  {
    LocationRoundTrip(l);
  }

  lemma ContactsPayloadRoundTrip(j: Json, cs: seq<Contact>)
    requires Get(j, "contacts") == Some(DumpContacts(cs))
    ensures DecodePayload(j, Enums.FreeFormMsgType.Contacts) == Some(ContactsPayload(cs))
  {
    ContactsRoundTrip(cs);
  }

  lemma InteractivePayloadRoundTrip(j: Json, i: Interactive)
    requires Get(j, "interactive") == Some(DumpInteractive(i))
    ensures DecodePayload(j, Enums.FreeFormMsgType.Interactive) == Some(InteractivePayload(i))
  {
    InteractiveRoundTrip(i);
  }

  /** The payload reads back from the field its `type` tag names. */
  lemma PayloadRoundTrip(j: Json, p: Payload)
    requires Get(j, p.Type().Value()) == Some(PayloadField(p).1)
    ensures DecodePayload(j, p.Type()) == Some(p)
  {
    match p
    case TextPayload(t) => TextPayloadRoundTrip(j, t);
    case ReactionPayload(r) => ReactionPayloadRoundTrip(j, r);
    case MediaPayload(k, m) =>
      MediaPayloadRoundTrip(j, k, m);
      MediaTagSelectsMediaDecoder(j, k);
    case LocationPayload(l) => LocationPayloadRoundTrip(j, l);
    case ContactsPayload(cs) => ContactsPayloadRoundTrip(j, cs);
    case InteractivePayload(i) => InteractivePayloadRoundTrip(j, i);
  }

  /** No payload field shares its name with an envelope field, so the payload never overwrites one. */
  lemma {:induction false} PayloadFieldIsNotEnvelopeField(p: Payload)
    ensures PayloadField(p).0 !in {"messaging_product", "recipient_type", "preview_url", "to", "context", "type"}
  {
    match p
    case MediaPayload(k, _) => match k { case _ => }
    case _ =>
  }

  /** The envelope fields of a dump read back as the message's own. */
  lemma {:induction false} EnvelopeFieldsRead(m: FreeFormMsg)
    ensures var j := DumpFreeForm(m);
      && GetStr(j, "messaging_product") == Some(m.messagingProduct)
      && GetStr(j, "recipient_type") == Some(m.recipientType)
      && GetBool(j, "preview_url") == Some(m.previewUrl)
      && GetStr(j, "to") == Some(m.to)
      && GetStr(j, "type") == Some(m.payload.Type().Value())
  {
    PayloadFieldIsNotEnvelopeField(m.payload);
  }

  lemma {:induction false} ContextFieldRead(m: FreeFormMsg)
    ensures GetOpt(DumpFreeForm(m), "context", DecodeContext) == Some(m.context)
  {
    PayloadFieldIsNotEnvelopeField(m.payload);
    GetOptOf(DumpFreeForm(m), "context", m.context, DumpContext, DecodeContext);
  }

  lemma {:induction false} PayloadFieldRead(m: FreeFormMsg)
    ensures Get(DumpFreeForm(m), m.payload.Type().Value()) == Some(PayloadField(m.payload).1)
  {
  }

  /**
   * A message built from `to` and a payload alone dumps the envelope
   * defaults: product "whatsapp", recipient type "individual", preview_url
   * false and no context.
   */
  lemma {:induction false} EnvelopeDefaultsDumped(to: string, p: Payload)
    ensures var j := DumpFreeForm(FreeFormMsg(to := to, payload := p));
      && GetStr(j, "messaging_product") == Some("whatsapp")
      && GetStr(j, "recipient_type") == Some("individual")
      && GetBool(j, "preview_url") == Some(false)
      && GetOpt(j, "context", DecodeContext) == Some(None)
  {
    EnvelopeFieldsRead(FreeFormMsg(to := to, payload := p));
    ContextFieldRead(FreeFormMsg(to := to, payload := p));
  }

  /** A location built with no arguments dumps its longitude as `[null]` and the rest as null. */
  lemma DefaultLocationDumped()
    ensures DumpLocation(Location()) ==
      JObject(map["longitude" := JArray([JNull]), "latitude" := JNull, "name" := JNull, "address" := JNull])
  {
  }

  /** Reading the dump of a free-form message recovers every field of it. */
  lemma {:induction false} FreeFormRoundTrip(m: FreeFormMsg)
    ensures DecodeFreeForm(DumpFreeForm(m)) == Some(m)
  {
    EnvelopeFieldsRead(m);
    ContextFieldRead(m);
    PayloadFieldRead(m);
    PayloadRoundTrip(DumpFreeForm(m), m.payload);
    FreeFormFromFields(DumpFreeForm(m), m);
  }

  lemma FreeFormFromFields(j: Json, m: FreeFormMsg)
    requires GetStr(j, "messaging_product") == Some(m.messagingProduct)
    requires GetStr(j, "recipient_type") == Some(m.recipientType)
    requires GetBool(j, "preview_url") == Some(m.previewUrl)
    requires GetStr(j, "to") == Some(m.to)
    requires GetOpt(j, "context", DecodeContext) == Some(m.context)
    requires GetStr(j, "type") == Some(m.payload.Type().Value())
    requires DecodePayload(j, m.payload.Type()) == Some(m.payload)
    ensures DecodeFreeForm(j) == Some(m)
  {
    Enums.FreeFormLookup(m.payload.Type());
  }
}
