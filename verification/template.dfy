/**
 * Template messages: the typed parameters, the header/body/footer
 * components with the parameter kinds each one accepts, the template and
 * its message envelope, their JSON dump and a decoder that reads a dump
 * back.  A record field called `type` in the SDK is called `kind` here.
 */
module Template {
  import opened Wrappers
  import opened Json
  import Enums

  datatype Language = Language(code: string := "en_US")

  datatype Image = Image(link: string)

  datatype Video = Video(link: string)

  datatype Document = Document(link: string)

  /** A floating-point coordinate, kept as its decimal literal. */
  datatype Degrees = Degrees(literal: string)

  datatype Location = Location(latitude: Degrees, longitude: Degrees, name: string, address: string)

  datatype Currency = Currency(fallbackValue: string, code: string := "USD", amount1000: int := 0)

  datatype DateTime = DateTime(fallbackValue: string := "")

  datatype Parameter =
    | ImageParameter(image: Image)
    | TextParameter(text: string)
    | VideoParameter(video: Video)
    | DocumentParameter(document: Document)
    | LocationParameter(location: Location)
    | DateTimeParameter(dateTime: DateTime)
    | CurrencyParameter(currency: Currency)
    | PayloadParameter(payload: string)
  {
    /** The fixed `type` tag of the parameter record class. */
    function Type(): Enums.ParameterType {
      match this
      case ImageParameter(_) => Enums.ParameterType.Image
      case TextParameter(_) => Enums.ParameterType.Text
      case VideoParameter(_) => Enums.ParameterType.Video
      case DocumentParameter(_) => Enums.ParameterType.Document
      case LocationParameter(_) => Enums.ParameterType.Location
      case DateTimeParameter(_) => Enums.ParameterType.DateTime
      case CurrencyParameter(_) => Enums.ParameterType.Currency
      case PayloadParameter(_) => Enums.ParameterType.Payload
    }
  }

  /**
   * The parameter kinds the union type of each component's `parameters`
   * list admits.  No component class has the `button` type.
   */
  predicate Accepts(c: Enums.ComponentType, k: Enums.ParameterType) {
    match c
    case Header =>
      k == Enums.ParameterType.Text || k == Enums.ParameterType.Image || k == Enums.ParameterType.Video
      || k == Enums.ParameterType.Document || k == Enums.ParameterType.Location
    case Body =>
      k == Enums.ParameterType.Text || k == Enums.ParameterType.Currency || k == Enums.ParameterType.DateTime
    case Footer => k == Enums.ParameterType.Text
    case Button => false
  }

  type HeaderParameter = p: Parameter | Accepts(Enums.ComponentType.Header, p.Type()) witness TextParameter("")

  type BodyParameter = p: Parameter | Accepts(Enums.ComponentType.Body, p.Type()) witness TextParameter("")

  type FooterParameter = p: Parameter | Accepts(Enums.ComponentType.Footer, p.Type()) witness TextParameter("")

  datatype Header = Header(parameters: seq<HeaderParameter> := [])

  datatype Body = Body(parameters: seq<BodyParameter> := [])

  datatype Footer = Footer(parameters: seq<FooterParameter> := [])

  datatype Component = HeaderComponent(header: Header) | BodyComponent(body: Body) | FooterComponent(footer: Footer)
  {
    /** The fixed `type` tag of the component class. */
    function Type(): Enums.ComponentType {
      match this
      case HeaderComponent(_) => Enums.ComponentType.Header
      case BodyComponent(_) => Enums.ComponentType.Body
      case FooterComponent(_) => Enums.ComponentType.Footer
    }

    function Parameters(): (ps: seq<Parameter>)
      ensures forall i :: 0 <= i < |ps| ==> Accepts(Type(), ps[i].Type())
    {
      match this
      case HeaderComponent(h) => h.parameters
      case BodyComponent(b) => b.parameters
      case FooterComponent(f) => f.parameters
    }
  }

  datatype Template = Template(name: string, language: Language, components: seq<Component>)

  datatype TemplateMsg = TemplateMsg(
    messagingProduct: string := "whatsapp",
    recipientType: string := "individual",
    kind: string := "template",
    to: string,
    template: Template)

  /**
   * Building a component of type `c` from a list of parameters: the union
   * type of the component's `parameters` field rejects every parameter of a
   * kind it does not list, and there is no component class of type button.
   */
  function ValidateComponent(c: Enums.ComponentType, ps: seq<Parameter>): (r: Option<Component>)
    ensures r.Some? <==> c != Enums.ComponentType.Button && forall i :: 0 <= i < |ps| ==> Accepts(c, ps[i].Type())
    ensures r.Some? ==> r.value.Type() == c && r.value.Parameters() == ps
  {
    if forall i :: 0 <= i < |ps| ==> Accepts(c, ps[i].Type()) then
      match c
      case Header => Some(HeaderComponent(Header(ps)))
      case Body => Some(BodyComponent(Body(ps)))
      case Footer => Some(FooterComponent(Footer(ps)))
      case Button => None
    else
      None
  }

  /** A payload parameter is accepted by no component. */
  lemma PayloadAcceptedNowhere(c: Enums.ComponentType, ps: seq<Parameter>)
    requires exists i :: 0 <= i < |ps| && ps[i].PayloadParameter?
    ensures ValidateComponent(c, ps).None?
  {
  }

  /** The component types the classes cover: never `button`. */
  lemma ComponentTypes(c: Component)
    ensures c.Type() != Enums.ComponentType.Button
    ensures c.Type().Value() in {"header", "body", "footer"}
  {
  }

  // -------------------------------------------------------------------------
  // model_dump()
  // -------------------------------------------------------------------------

  function DumpLocation(l: Location): Json {
    JObject(map[
      "latitude" := JNumber(l.latitude.literal),
      "longitude" := JNumber(l.longitude.literal),
      "name" := JStr(l.name),
      "address" := JStr(l.address)])
  }

  function DumpCurrency(c: Currency): Json {
    JObject(map[
      "fallback_value" := JStr(c.fallbackValue),
      "code" := JStr(c.code),
      "amount_1000" := JInt(c.amount1000)])
  }

  /**
   * The parameter's own field: its name and its dump.  Each parameter class
   * names that field after its `type` tag.
   */
  function ParameterField(p: Parameter): (f: (string, Json))
    ensures f.0 == p.Type().Value()
  {
    match p
    case ImageParameter(i) => ("image", JObject(map["link" := JStr(i.link)]))
    case TextParameter(t) => ("text", JStr(t))
    case VideoParameter(v) => ("video", JObject(map["link" := JStr(v.link)]))
    case DocumentParameter(d) => ("document", JObject(map["link" := JStr(d.link)]))
    case LocationParameter(l) => ("location", DumpLocation(l))
    case DateTimeParameter(d) => ("date_time", JObject(map["fallback_value" := JStr(d.fallbackValue)]))
    case CurrencyParameter(c) => ("currency", DumpCurrency(c))
    case PayloadParameter(s) => ("payload", JStr(s))
  }

  function DumpParameter(p: Parameter): Json {
    var f := ParameterField(p);
    JObject(map["type" := JStr(p.Type().Value()), f.0 := f.1])
  }

  function DumpParameters(ps: seq<Parameter>): Json { List(ps, DumpParameter) }

  function DumpComponent(c: Component): Json {
    JObject(map["type" := JStr(c.Type().Value()), "parameters" := DumpParameters(c.Parameters())])
  }

  function DumpTemplate(t: Template): Json {
    JObject(map[
      "name" := JStr(t.name),
      "language" := JObject(map["code" := JStr(t.language.code)]),
      "components" := List(t.components, DumpComponent)])
  }

  function DumpTemplateMsg(m: TemplateMsg): Json {
    JObject(map[
      "messaging_product" := JStr(m.messagingProduct),
      "recipient_type" := JStr(m.recipientType),
      "type" := JStr(m.kind),
      "to" := JStr(m.to),
      "template" := DumpTemplate(m.template)])
  }

  // -------------------------------------------------------------------------
  // Reading a dump back.
  // -------------------------------------------------------------------------

  function DecodeLink(j: Json): Option<string> {
    GetStr(j, "link")
  }

  function DecodeLocation(j: Json): Option<Location> {
    var latitude :- GetNumber(j, "latitude");
    var longitude :- GetNumber(j, "longitude");
    var name :- GetStr(j, "name");
    var address :- GetStr(j, "address");
    Some(Location(Degrees(latitude), Degrees(longitude), name, address))
  }

  function DecodeCurrency(j: Json): Option<Currency> {
    var fallback :- GetStr(j, "fallback_value");
    var code :- GetStr(j, "code");
    var amount :- GetInt(j, "amount_1000");
    Some(Currency(fallback, code, amount))
  }

  function DecodeDateTime(j: Json): Option<DateTime> {
    var fallback :- GetStr(j, "fallback_value");
    Some(DateTime(fallback))
  }

  /** The parameter's shape is chosen by its `type` tag. */
  function DecodeParameter(j: Json): (r: Option<Parameter>)
    ensures r.Some? ==> Some(JStr(r.value.Type().Value())) == Get(j, "type")
  {
    var tag :- GetStr(j, "type");
    var t :- Enums.ParseParameterType(tag);
    var v :- Get(j, tag);
    DecodeParameterValue(v, t)
  }

  /** The value field of a parameter whose `type` tag is `t`. */
  function DecodeParameterValue(v: Json, t: Enums.ParameterType): (r: Option<Parameter>)
    ensures r.Some? ==> r.value.Type() == t
  {
    match t
    case Image =>
      var link :- DecodeLink(v);
      Some(ImageParameter(Image(link)))
    case Text =>
      var text :- AsStr(v);
      Some(TextParameter(text))
    case Video =>
      var link :- DecodeLink(v);
      Some(VideoParameter(Video(link)))
    case Document =>
      var link :- DecodeLink(v);
      Some(DocumentParameter(Document(link)))
    case Location =>
      var location :- DecodeLocation(v);
      Some(LocationParameter(location))
    case DateTime =>
      var dateTime :- DecodeDateTime(v);
      Some(DateTimeParameter(dateTime))
    case Currency =>
      var currency :- DecodeCurrency(v);
      Some(CurrencyParameter(currency))
    case Payload =>
      var payload :- AsStr(v);
      Some(PayloadParameter(payload))
  }

  /** A component is re-validated against the kinds its type accepts. */
  function DecodeComponent(j: Json): Option<Component> {
    var tag :- GetStr(j, "type");
    var t :- Enums.ParseComponentType(tag);
    var ps :- GetList(j, "parameters", DecodeParameter);
    ValidateComponent(t, ps)
  }

  function DecodeTemplate(j: Json): Option<Template> {
    var name :- GetStr(j, "name");
    var language :- Get(j, "language");
    var code :- GetStr(language, "code");
    var components :- GetList(j, "components", DecodeComponent);
    Some(Template(name, Language(code), components))
  }

  function DecodeTemplateMsg(j: Json): Option<TemplateMsg> {
    var product :- GetStr(j, "messaging_product");
    var recipient :- GetStr(j, "recipient_type");
    var kind :- GetStr(j, "type");
    var to :- GetStr(j, "to");
    var template :- GetObj(j, "template", DecodeTemplate);
    Some(TemplateMsg(product, recipient, kind, to, template))
  }

  // -------------------------------------------------------------------------
  // Round trips.
  // -------------------------------------------------------------------------

  lemma ParameterValueRoundTrip(p: Parameter)
    ensures DecodeParameterValue(ParameterField(p).1, p.Type()) == Some(p)
  {
  }

  lemma ParameterRoundTrip(p: Parameter)
    ensures DecodeParameter(DumpParameter(p)) == Some(p)
  {
    var j := DumpParameter(p);
    var f := ParameterField(p);
    Enums.ParameterLookup(p.Type());
    assert f.0 != "type";
    assert GetStr(j, "type") == Some(f.0);
    assert Get(j, f.0) == Some(f.1);
    ParameterValueRoundTrip(p);
  }

  lemma ComponentRoundTrip(c: Component)
    ensures DecodeComponent(DumpComponent(c)) == Some(c)
  {
    var ps := c.Parameters();
    forall i | 0 <= i < |ps| ensures DecodeParameter(DumpParameter(ps[i])) == Some(ps[i]) {
      ParameterRoundTrip(ps[i]);
    }
    ListRoundTrip(ps, DumpParameter, DecodeParameter);
    Enums.ComponentLookup(c.Type());
  }

  lemma TemplateFromFields(j: Json, t: Template)
    requires GetStr(j, "name") == Some(t.name)
    requires Get(j, "language") == Some(JObject(map["code" := JStr(t.language.code)]))
    requires GetList(j, "components", DecodeComponent) == Some(t.components)
    ensures DecodeTemplate(j) == Some(t)
  {
  }

  lemma ComponentsRoundTrip(cs: seq<Component>)
    ensures AsList(List(cs, DumpComponent), DecodeComponent) == Some(cs)
  {
    forall i | 0 <= i < |cs| ensures DecodeComponent(DumpComponent(cs[i])) == Some(cs[i]) {
      ComponentRoundTrip(cs[i]);
    }
    ListRoundTrip(cs, DumpComponent, DecodeComponent);
  }

  lemma TemplateRoundTrip(t: Template)
    ensures DecodeTemplate(DumpTemplate(t)) == Some(t)
  {
    var j := DumpTemplate(t);
    GetStrOf(j, "name", t.name);
    ComponentsRoundTrip(t.components);
    assert GetList(j, "components", DecodeComponent) == Some(t.components);
    TemplateFromFields(j, t);
  }

  /**
   * The declared defaults as they are dumped: a template message built from
   * `to` and a template alone, an empty component, a currency and a date
   * given only what they require, and the default language.
   */
  lemma TemplateDefaultsDumped(to: string, t: Template, fallback: string)
    ensures var j := DumpTemplateMsg(TemplateMsg(to := to, template := t));
      && Get(j, "messaging_product") == Some(JStr("whatsapp"))
      && Get(j, "recipient_type") == Some(JStr("individual"))
      && Get(j, "type") == Some(JStr("template"))
    ensures DumpComponent(HeaderComponent(Header())) == JObject(map["type" := JStr("header"), "parameters" := JArray([])])
    ensures DumpComponent(BodyComponent(Body())) == JObject(map["type" := JStr("body"), "parameters" := JArray([])])
    ensures DumpComponent(FooterComponent(Footer())) == JObject(map["type" := JStr("footer"), "parameters" := JArray([])])
    ensures DumpCurrency(Currency(fallback)) ==
      JObject(map["fallback_value" := JStr(fallback), "code" := JStr("USD"), "amount_1000" := JInt(0)])
    ensures ParameterField(DateTimeParameter(DateTime())).1 == JObject(map["fallback_value" := JStr("")])
    ensures Get(DumpTemplate(t.(language := Language())), "language") == Some(JObject(map["code" := JStr("en_US")]))
  {
  }

  /** Reading the dump of a template message recovers every field of it. */
  lemma {:induction false} TemplateMsgRoundTrip(m: TemplateMsg)
    ensures DecodeTemplateMsg(DumpTemplateMsg(m)) == Some(m)
  {
    var j := DumpTemplateMsg(m);
    GetStrOf(j, "messaging_product", m.messagingProduct);
    GetStrOf(j, "recipient_type", m.recipientType);
    GetStrOf(j, "type", m.kind);
    GetStrOf(j, "to", m.to);
    TemplateRoundTrip(m.template);
    GetObjOf(j, "template", DumpTemplate(m.template), DecodeTemplate, m.template);
    TemplateMsgFromFields(j, m);
  }

  lemma TemplateMsgFromFields(j: Json, m: TemplateMsg)
    requires GetStr(j, "messaging_product") == Some(m.messagingProduct)
    requires GetStr(j, "recipient_type") == Some(m.recipientType)
    requires GetStr(j, "type") == Some(m.kind) && GetStr(j, "to") == Some(m.to)
    requires GetObj(j, "template", DecodeTemplate) == Some(m.template)
    ensures DecodeTemplateMsg(j) == Some(m)
  {
  }
}
