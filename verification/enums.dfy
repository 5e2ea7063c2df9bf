/**
 * The string-valued enumerations of the SDK.  Each enumeration is a
 * datatype with a `Value()` table giving the string the enum member stands
 * for (the enums derive from `str`, so that string is what a dump emits),
 * and a `Parse…` function modelling the by-value lookup `Enum(s)`.
 */
module Enums {
  import opened Wrappers

  /** Free-form message kinds, the top-level `type` of a free-form message. */
  datatype FreeFormMsgType =
    | Text | Reaction | Media | Audio | Document | Image | Sticker | Video
    | Location | Contacts | Interactive | Address | Messages
  {
    function Value(): string {
      match this
      case Text => "text"
      case Reaction => "reaction"
      case Media => "media"
      case Audio => "audio"
      case Document => "document"
      case Image => "image"
      case Sticker => "sticker"
      case Video => "video"
      case Location => "location"
      case Contacts => "contacts"
      case Interactive => "interactive"
      case Address => "address"
      case Messages => "messages"
    }
  }

  /** The media kinds; each is also a free-form kind. */
  datatype MediaMsgType = Audio | Document | Image | Sticker | Video {
    function Value(): string {
      match this
      case Audio => "audio"
      case Document => "document"
      case Image => "image"
      case Sticker => "sticker"
      case Video => "video"
    }
  }

  /** The inner `type` of an interactive message. */
  datatype InteractiveMsgType = List | Button | CtaUrl {
    function Value(): string {
      match this
      case List => "list"
      case Button => "button"
      case CtaUrl => "cta_url"
    }
  }

  datatype AddressType = Home | Work {
    function Value(): string {
      match this
      case Home => "HOME"
      case Work => "WORK"
    }
  }

  /** The `type` of a template component. */
  datatype ComponentType = Header | Body | Footer | Button {
    function Value(): string {
      match this
      case Header => "header"
      case Body => "body"
      case Footer => "footer"
      case Button => "button"
    }
  }

  /** The kind of a template header; no record of the SDK refers to it. */
  datatype TemplateHeaderType = Text | Image {
    function Value(): string {
      match this
      case Text => "text"
      case Image => "image"
    }
  }

  /** The `type` of a template parameter. */
  datatype ParameterType = Image | Text | Currency | DateTime | Payload | Location | Document | Video {
    function Value(): string {
      match this
      case Image => "image"
      case Text => "text"
      case Currency => "currency"
      case DateTime => "date_time"
      case Payload => "payload"
      case Location => "location"
      case Document => "document"
      case Video => "video"
    }
  }

  // -----------------------------------------------------------------------
  // Lookup by value, `FreeFormMsgType("text")` and the like.
  // -----------------------------------------------------------------------

  function ParseFreeFormMsgType(s: string): (r: Option<FreeFormMsgType>)
    ensures r.Some? ==> r.value.Value() == s
  {
    if s == "text" then Some(FreeFormMsgType.Text)
    else if s == "reaction" then Some(FreeFormMsgType.Reaction)
    else if s == "media" then Some(FreeFormMsgType.Media)
    else if s == "audio" then Some(FreeFormMsgType.Audio)
    else if s == "document" then Some(FreeFormMsgType.Document)
    else if s == "image" then Some(FreeFormMsgType.Image)
    else if s == "sticker" then Some(FreeFormMsgType.Sticker)
    else if s == "video" then Some(FreeFormMsgType.Video)
    else if s == "location" then Some(FreeFormMsgType.Location)
    else if s == "contacts" then Some(FreeFormMsgType.Contacts)
    else if s == "interactive" then Some(FreeFormMsgType.Interactive)
    else if s == "address" then Some(FreeFormMsgType.Address)
    else if s == "messages" then Some(FreeFormMsgType.Messages)
    else None
  }

  function ParseMediaMsgType(s: string): (r: Option<MediaMsgType>)
    ensures r.Some? ==> r.value.Value() == s
  {
    if s == "audio" then Some(MediaMsgType.Audio)
    else if s == "document" then Some(MediaMsgType.Document)
    else if s == "image" then Some(MediaMsgType.Image)
    else if s == "sticker" then Some(MediaMsgType.Sticker)
    else if s == "video" then Some(MediaMsgType.Video)
    else None
  }

  function ParseInteractiveMsgType(s: string): (r: Option<InteractiveMsgType>)
    ensures r.Some? <==> s == "list" || s == "button" || s == "cta_url"
    ensures r.Some? ==> r.value.Value() == s
  {
    if s == "list" then Some(InteractiveMsgType.List)
    else if s == "button" then Some(InteractiveMsgType.Button)
    else if s == "cta_url" then Some(InteractiveMsgType.CtaUrl)
    else None
  }

  function ParseAddressType(s: string): (r: Option<AddressType>)
    ensures r.Some? <==> s == "HOME" || s == "WORK"
    ensures r.Some? ==> r.value.Value() == s
  {
    if s == "HOME" then Some(AddressType.Home)
    else if s == "WORK" then Some(AddressType.Work)
    else None
  }

  function ParseTemplateHeaderType(s: string): (r: Option<TemplateHeaderType>)
    ensures r.Some? <==> s == "text" || s == "image"
    ensures r.Some? ==> r.value.Value() == s
  {
    if s == "text" then Some(TemplateHeaderType.Text)
    else if s == "image" then Some(TemplateHeaderType.Image)
    else None
  }

  function ParseComponentType(s: string): (r: Option<ComponentType>)
    ensures r.Some? <==> s == "header" || s == "body" || s == "footer" || s == "button"
    ensures r.Some? ==> r.value.Value() == s
  {
    if s == "header" then Some(ComponentType.Header)
    else if s == "body" then Some(ComponentType.Body)
    else if s == "footer" then Some(ComponentType.Footer)
    else if s == "button" then Some(ComponentType.Button)
    else None
  }

  function ParseParameterType(s: string): (r: Option<ParameterType>)
    ensures r.Some? ==> r.value.Value() == s
  {
    if s == "image" then Some(ParameterType.Image)
    else if s == "text" then Some(ParameterType.Text)
    else if s == "currency" then Some(ParameterType.Currency)
    else if s == "date_time" then Some(ParameterType.DateTime)
    else if s == "payload" then Some(ParameterType.Payload)
    else if s == "location" then Some(ParameterType.Location)
    else if s == "document" then Some(ParameterType.Document)
    else if s == "video" then Some(ParameterType.Video)
    else None
  }

  // -----------------------------------------------------------------------
  // Lookup inverts the value table, so each table is injective.
  // -----------------------------------------------------------------------

  lemma FreeFormLookup(t: FreeFormMsgType)
    ensures ParseFreeFormMsgType(t.Value()) == Some(t)
  {
  }

  lemma {:induction false} FreeFormValuesDistinct(a: FreeFormMsgType, b: FreeFormMsgType)
    ensures a.Value() == b.Value() ==> a == b
  {
    FreeFormLookup(a);
    FreeFormLookup(b);
  }

  lemma MediaLookup(t: MediaMsgType)
    ensures ParseMediaMsgType(t.Value()) == Some(t)
  {
  }

  lemma InteractiveLookup(t: InteractiveMsgType)
    ensures ParseInteractiveMsgType(t.Value()) == Some(t)
  {
  }

  lemma {:induction false} InteractiveValuesDistinct(a: InteractiveMsgType, b: InteractiveMsgType)
    ensures a.Value() == b.Value() ==> a == b
  {
    InteractiveLookup(a);
    InteractiveLookup(b);
  }

  lemma AddressLookup(t: AddressType)
    ensures ParseAddressType(t.Value()) == Some(t)
  {
  }

  lemma ComponentLookup(t: ComponentType)
    ensures ParseComponentType(t.Value()) == Some(t)
  {
  }

  lemma TemplateHeaderLookup(t: TemplateHeaderType)
    ensures ParseTemplateHeaderType(t.Value()) == Some(t)
  {
  }

  lemma ParameterLookup(t: ParameterType)
    ensures ParseParameterType(t.Value()) == Some(t)
  {
  }

  /** All parameter kinds, in declaration order. */
  const ParameterTypes: seq<ParameterType> :=
    [ParameterType.Image, ParameterType.Text, ParameterType.Currency, ParameterType.DateTime,
     ParameterType.Payload, ParameterType.Location, ParameterType.Document, ParameterType.Video]

  /** There are eight parameter kinds and their strings are pairwise distinct. */
  lemma {:induction false} ParameterTypesDistinct()
    ensures |ParameterTypes| == 8
    ensures forall t: ParameterType :: t in ParameterTypes
    ensures forall i, j :: 0 <= i < j < |ParameterTypes| ==> ParameterTypes[i].Value() != ParameterTypes[j].Value()
  {
    forall t: ParameterType ensures t in ParameterTypes {
      match t
      case Image => assert ParameterTypes[0] == t;
      case Text => assert ParameterTypes[1] == t;
      case Currency => assert ParameterTypes[2] == t;
      case DateTime => assert ParameterTypes[3] == t;
      case Payload => assert ParameterTypes[4] == t;
      case Location => assert ParameterTypes[5] == t;
      case Document => assert ParameterTypes[6] == t;
      case Video => assert ParameterTypes[7] == t;
    }
    forall i, j | 0 <= i < j < |ParameterTypes|
      ensures ParameterTypes[i].Value() != ParameterTypes[j].Value()
    {
      ParameterLookup(ParameterTypes[i]);
      ParameterLookup(ParameterTypes[j]);
    }
  }

  // -----------------------------------------------------------------------
  // Media kinds inside the free-form kinds.
  // -----------------------------------------------------------------------

  /** The free-form kind with the same string as a media kind. */
  function MediaAsFreeForm(m: MediaMsgType): (t: FreeFormMsgType)
    ensures t.Value() == m.Value()
  {
    match m
    case Audio => FreeFormMsgType.Audio
    case Document => FreeFormMsgType.Document
    case Image => FreeFormMsgType.Image
    case Sticker => FreeFormMsgType.Sticker
    case Video => FreeFormMsgType.Video
  }

  /** The media kind a free-form kind names, if it names one. */
  function FreeFormAsMedia(t: FreeFormMsgType): (r: Option<MediaMsgType>)
    ensures r.Some? ==> MediaAsFreeForm(r.value) == t
    ensures forall m: MediaMsgType :: MediaAsFreeForm(m) == t ==> r == Some(m)
  {
    match t
    case Audio => Some(MediaMsgType.Audio)
    case Document => Some(MediaMsgType.Document)
    case Image => Some(MediaMsgType.Image)
    case Sticker => Some(MediaMsgType.Sticker)
    case Video => Some(MediaMsgType.Video)
    case _ => None
  }
}
