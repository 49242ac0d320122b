/**
  The contribution feed parser (`parseContribution` and its helpers): a raw
  API record is dispatched on its `content_type.name` to one of four variant
  mappers, each producing a typed contribution item.

  Raw objects keep their API key names (snake_case). The two objects the
  mappers write into, an actor's `author_profile` and an item's
  `unified_document`, are classes whose fields change in place; everything
  else in a raw record is read only. Either object may be absent (a null
  reference), in which case the write throws before anything is changed. The
  author-profile parser and the unified-document parser are not part of this
  model and are passed in.
 */
module Contribution {
  import opened Common

  /** What `parseAuthorProfile` returns. */
  type AuthorProfile(==)
  /** What `parseUnifiedDocument` returns. */
  type UnifiedDocument(==)
  /** The keys of a raw object that no mapper here reads or writes. */
  type Extra(==, !new)

  // ---------------------------------------------------------------------------
  // Raw records as the mappers see them

  /** The value of a raw `author_profile` object at one moment. */
  datatype ProfileValue = ProfileValue(first_name: string, last_name: string, extra: Extra)

  /** The `documents` stub a paper injects into its unified document. */
  datatype DocumentsStub = DocumentsStub(id: Id, title: string, slug: string)

  /** The value of a raw `unified_document` object at one moment. */
  datatype DocumentValue = DocumentValue(documents: Option<DocumentsStub>, extra: Extra)

  /** The value of a raw actor (`created_by` / `uploaded_by`); an absent profile is `None`. */
  datatype ActorValue = ActorValue(id: Id, first_name: string, last_name: string, author_profile: Option<ProfileValue>)

  /** The value of a raw `item`; an absent actor or document is `None`. */
  datatype ItemValue = ItemValue(
    id: Id,
    title: string,
    slug: string,
    plain_text: string,
    created_by: Option<ActorValue>,
    uploaded_by: Option<ActorValue>,
    unified_document: Option<DocumentValue>)

  /** The discriminator object `content_type`. */
  datatype RawContentType = RawContentType(id: Id, name: string)

  /**
    The two parsers the mappers delegate to. The document parser is handed
    whatever `unified_document` holds, absent included.
   */
  datatype Parsers = Parsers(
    parseAuthorProfile: ProfileValue -> AuthorProfile,
    parseUnifiedDocument: Option<DocumentValue> -> UnifiedDocument)

  class RawProfile {
    var first_name: string
    var last_name: string
    const extra: Extra

    constructor (first_name: string, last_name: string, extra: Extra)
      ensures Value() == ProfileValue(first_name, last_name, extra)
    {
      this.first_name, this.last_name, this.extra := first_name, last_name, extra;
    }

    function Value(): ProfileValue
      reads this
    {
      ProfileValue(first_name, last_name, extra)
    }
  }

  class RawUnifiedDocument {
    var documents: Option<DocumentsStub>
    const extra: Extra

    constructor (documents: Option<DocumentsStub>, extra: Extra)
      ensures Value() == DocumentValue(documents, extra)
    {
      this.documents, this.extra := documents, extra;
    }

    function Value(): DocumentValue
      reads this
    {
      DocumentValue(documents, extra)
    }
  }

  class RawActor {
    const id: Id
    const first_name: string
    const last_name: string
    const author_profile: RawProfile?

    constructor (id: Id, first_name: string, last_name: string, author_profile: RawProfile?)
      ensures this.id == id && this.first_name == first_name && this.last_name == last_name
      ensures this.author_profile == author_profile
    {
      this.id, this.first_name, this.last_name, this.author_profile := id, first_name, last_name, author_profile;
    }

    function Value(): ActorValue
      reads ProfileOf(this)
    {
      ActorValue(id, first_name, last_name, if author_profile == null then None else Some(author_profile.Value()))
    }
  }

  /** The profile object a mapper may overwrite through an actor, if there is one. */
  function ProfileOf(a: RawActor?): set<object> {
    if a == null || a.author_profile == null then {} else {a.author_profile}
  }

  function ActorValueOf(a: RawActor?): Option<ActorValue>
    reads ProfileOf(a)
  {
    if a == null then None else Some(a.Value())
  }

  /** The document object a paper writes into, if there is one. */
  function DocumentOf(d: RawUnifiedDocument?): set<object> {
    if d == null then {} else {d}
  }

  function DocumentValueOf(d: RawUnifiedDocument?): Option<DocumentValue>
    reads DocumentOf(d)
  {
    if d == null then None else Some(d.Value())
  }

  class RawItem {
    const id: Id
    const title: string
    const slug: string
    const plain_text: string
    const created_by: RawActor?
    const uploaded_by: RawActor?
    const unified_document: RawUnifiedDocument?

    constructor (id: Id, title: string, slug: string, plain_text: string,
                 created_by: RawActor?, uploaded_by: RawActor?, unified_document: RawUnifiedDocument?)
      ensures this.id == id && this.title == title && this.slug == slug && this.plain_text == plain_text
      ensures this.created_by == created_by && this.uploaded_by == uploaded_by
      ensures this.unified_document == unified_document
    {
      this.id, this.title, this.slug, this.plain_text := id, title, slug, plain_text;
      this.created_by, this.uploaded_by, this.unified_document := created_by, uploaded_by, unified_document;
    }

    function Value(): ItemValue
      reads DocumentOf(unified_document), ProfileOf(created_by), ProfileOf(uploaded_by)
    {
      ItemValue(id, title, slug, plain_text, ActorValueOf(created_by), ActorValueOf(uploaded_by),
                DocumentValueOf(unified_document))
    }
  }

  /** A raw feed record: `{content_type, created_date, item}`. */
  datatype RawContribution = RawContribution(content_type: RawContentType, created_date: string, item: RawItem)

  // ---------------------------------------------------------------------------
  // Parsed records

  datatype CreatedBy = CreatedBy(id: Id, firstName: string, lastName: string, authorProfile: AuthorProfile)

  datatype ContentTypeName = CommentType | PaperType | PostType | HypothesisType

  datatype ContentType = ContentType(id: Id, name: ContentTypeName)

  datatype Item =
    | CommentContribution(unifiedDocument: UnifiedDocument, plainText: string, createdBy: CreatedBy, id: Id)
    | PaperContribution(unifiedDocument: UnifiedDocument, title: string, slug: string, createdBy: CreatedBy, id: Id)
    | PostContribution(unifiedDocument: UnifiedDocument, title: string, slug: string, createdBy: CreatedBy, id: Id)
    | HypothesisContribution(unifiedDocument: UnifiedDocument, title: string, slug: string, createdBy: CreatedBy, id: Id)

  datatype Contribution = Contribution(item: Item, createdDate: string, contentType: ContentType)

  /** The content type an item variant belongs to. */
  function KindOf(item: Item): ContentTypeName {
    match item
    case CommentContribution(_, _, _, _) => CommentType
    case PaperContribution(_, _, _, _, _) => PaperType
    case PostContribution(_, _, _, _, _) => PostType
    case HypothesisContribution(_, _, _, _, _) => HypothesisType
  }

  // ---------------------------------------------------------------------------
  // Discriminator

  const CommentNames: set<string> := {"thread", "comment", "reply"}

  /** The raw names that denote a content type: the inverse of the resolver. */
  function RawNames(t: ContentTypeName): set<string> {
    match t
    case CommentType => CommentNames
    case PaperType => {"paper"}
    case PostType => {"researchhubpost"}
    case HypothesisType => {"hypothesis"}
  }

  const KnownNames: set<string> := CommentNames + {"paper", "researchhubpost", "hypothesis"}

  const UnknownTypePrefix: string := "Could not parse object with content_type="

  /** `parseContentType(raw)`: the closed name table, or an error naming the offending name. */
  function ParseContentType(raw: RawContentType): (r: Result<ContentType>)
    ensures r.Ok? <==> raw.name in KnownNames
    ensures r.Ok? ==> r.value.id == raw.id && raw.name in RawNames(r.value.name)
    ensures r.Err? ==> r.message == UnknownTypePrefix + raw.name
  {
    if raw.name in CommentNames then Ok(ContentType(raw.id, CommentType))
    else if raw.name == "paper" then Ok(ContentType(raw.id, PaperType))
    else if raw.name == "researchhubpost" then Ok(ContentType(raw.id, PostType))
    else if raw.name == "hypothesis" then Ok(ContentType(raw.id, HypothesisType))
    else Err(UnknownTypePrefix + raw.name)
  }

  /** Every name of every content type resolves to that type: the resolver is onto and the tables do not overlap. */
  lemma ContentTypeRoundTrip(t: ContentTypeName, name: string, id: Id)
    requires name in RawNames(t)
    ensures ParseContentType(RawContentType(id, name)) == Ok(ContentType(id, t))
  {
  }

  /** The error text ends with the name that was not recognised. */
  lemma UnknownTypeMessageNamesIt(raw: RawContentType)
    requires raw.name !in KnownNames
    ensures var m := ParseContentType(raw).message;
      |raw.name| <= |m| && m[|m| - |raw.name|..] == raw.name
  {
    var m := ParseContentType(raw).message;
    assert m == UnknownTypePrefix + raw.name;
    assert m[|UnknownTypePrefix|..] == raw.name;
  }

  // ---------------------------------------------------------------------------
  // Variant mappers, as functions of the raw values they start from

  /** Reading `author_profile` of an absent actor. */
  const MissingActorError: string := "TypeError: Cannot read properties of undefined (reading 'author_profile')"
  /** Writing the first name into an absent `author_profile`. */
  const MissingProfileError: string := "TypeError: Cannot set properties of undefined (setting 'first_name')"
  /** Writing `documents` into an absent `unified_document`. */
  const MissingDocumentError: string := "TypeError: Cannot set properties of undefined (setting 'documents')"

  /** An actor `parseCreatedBy` can map: present, with a profile to write into. */
  predicate Creditable(a: Option<ActorValue>) {
    a.Some? && a.value.author_profile.Some?
  }

  /** The actor after `parseCreatedBy` has written its names into the nested profile (if any). */
  function CopyNames(a: ActorValue): ActorValue {
    match a.author_profile
    case None => a
    case Some(p) => a.(author_profile := Some(p.(first_name := a.first_name, last_name := a.last_name)))
  }

  /** `parseCreatedBy(raw)` on an actor that has a profile. */
  function CreatedByOf(ps: Parsers, a: ActorValue): (r: CreatedBy)
    requires a.author_profile.Some?
    ensures r.id == a.id && r.firstName == a.first_name && r.lastName == a.last_name
  {
    CreatedBy(a.id, a.first_name, a.last_name, ps.parseAuthorProfile(CopyNames(a).author_profile.value))
  }

  /** `parseCreatedBy(raw)` on any actor value, absent ones included. */
  function CreatedByFrom(ps: Parsers, a: Option<ActorValue>): (r: Result<CreatedBy>)
    ensures r.Ok? <==> Creditable(a)
    ensures a.None? ==> r == Err(MissingActorError)
    ensures a.Some? && a.value.author_profile.None? ==> r == Err(MissingProfileError)
  {
    match a
    case None => Err(MissingActorError)
    case Some(actor) =>
      if actor.author_profile.None? then Err(MissingProfileError) else Ok(CreatedByOf(ps, actor))
  }

  /**
    The actor's top-level names are authoritative: the names the nested
    profile carried before play no part, and the profile parser is handed the
    actor's names.
   */
  lemma NameAuthority(ps: Parsers, a: ActorValue, staleFirst: string, staleLast: string)
    requires a.author_profile.Some?
    ensures var stale := a.(author_profile := Some(a.author_profile.value.(first_name := staleFirst, last_name := staleLast)));
      CreatedByOf(ps, stale) == CreatedByOf(ps, a)
    ensures CreatedByOf(ps, a).authorProfile
              == ps.parseAuthorProfile(ProfileValue(a.first_name, a.last_name, a.author_profile.value.extra))
  {
  }

  function CommentOf(ps: Parsers, v: ItemValue): (r: Result<Item>)
    ensures r.Ok? <==> Creditable(v.created_by)
    ensures r.Ok? ==> r.value.CommentContribution? && r.value.id == v.id && r.value.plainText == v.plain_text
  {
    match CreatedByFrom(ps, v.created_by)
    case Err(e) => Err(e)
    case Ok(createdBy) => Ok(CommentContribution(ps.parseUnifiedDocument(v.unified_document), v.plain_text, createdBy, v.id))
  }

  /** The unified document after a paper has injected its own `{id, title, slug}`; nothing when it is absent. */
  function WithDocuments(v: ItemValue): Option<DocumentValue> {
    match v.unified_document
    case None => None
    case Some(d) => Some(d.(documents := Some(DocumentsStub(v.id, v.title, v.slug))))
  }

  /** The paper mapper: the document write comes first, so an absent document fails before the uploader is looked at. */
  function PaperOf(ps: Parsers, v: ItemValue): (r: Result<Item>)
    ensures r.Ok? <==> v.unified_document.Some? && Creditable(v.uploaded_by)
    ensures v.unified_document.None? ==> r == Err(MissingDocumentError)
    ensures r.Ok? ==> r.value.PaperContribution? && r.value.id == v.id && r.value.title == v.title && r.value.slug == v.slug
  {
    if v.unified_document.None? then Err(MissingDocumentError)
    else
      match CreatedByFrom(ps, v.uploaded_by)
      case Err(e) => Err(e)
      case Ok(createdBy) => Ok(PaperContribution(ps.parseUnifiedDocument(WithDocuments(v)), v.title, v.slug, createdBy, v.id))
  }

  function PostOf(ps: Parsers, v: ItemValue): (r: Result<Item>)
    ensures r.Ok? <==> Creditable(v.created_by)
    ensures r.Ok? ==> r.value.PostContribution? && r.value.id == v.id && r.value.title == v.title && r.value.slug == v.slug
  {
    match CreatedByFrom(ps, v.created_by)
    case Err(e) => Err(e)
    case Ok(createdBy) => Ok(PostContribution(ps.parseUnifiedDocument(v.unified_document), v.title, v.slug, createdBy, v.id))
  }

  function HypothesisOf(ps: Parsers, v: ItemValue): (r: Result<Item>)
    ensures r.Ok? <==> Creditable(v.created_by)
    ensures r.Ok? ==> r.value.HypothesisContribution? && r.value.id == v.id && r.value.title == v.title && r.value.slug == v.slug
  {
    match CreatedByFrom(ps, v.created_by)
    case Err(e) => Err(e)
    case Ok(createdBy) => Ok(HypothesisContribution(ps.parseUnifiedDocument(v.unified_document), v.title, v.slug, createdBy, v.id))
  }

  /** The paper mapper hands the document parser the paper's own id, title and slug, and credits the uploader. */
  lemma PaperBackfill(ps: Parsers, v: ItemValue)
    requires v.unified_document.Some? && Creditable(v.uploaded_by)
    ensures PaperOf(ps, v).Ok?
    ensures PaperOf(ps, v).value.unifiedDocument
              == ps.parseUnifiedDocument(Some(DocumentValue(Some(DocumentsStub(v.id, v.title, v.slug)), v.unified_document.value.extra)))
    ensures PaperOf(ps, v).value.createdBy == CreatedByOf(ps, v.uploaded_by.value)
    ensures forall other: Option<ActorValue> :: PaperOf(ps, v.(created_by := other)) == PaperOf(ps, v)
  {
  }

  /** The other three mappers credit `created_by`, pass the document through untouched and ignore the uploader. */
  lemma NonPaperMappersUseCreator(ps: Parsers, v: ItemValue, other: Option<ActorValue>)
    requires Creditable(v.created_by)
    ensures var c := CreatedByOf(ps, v.created_by.value); var d := ps.parseUnifiedDocument(v.unified_document);
      && CommentOf(ps, v) == Ok(CommentContribution(d, v.plain_text, c, v.id))
      && PostOf(ps, v) == Ok(PostContribution(d, v.title, v.slug, c, v.id))
      && HypothesisOf(ps, v) == Ok(HypothesisContribution(d, v.title, v.slug, c, v.id))
    ensures CommentOf(ps, v.(uploaded_by := other)) == CommentOf(ps, v)
    ensures PostOf(ps, v.(uploaded_by := other)) == PostOf(ps, v)
    ensures HypothesisOf(ps, v.(uploaded_by := other)) == HypothesisOf(ps, v)
  {
  }

  // ---------------------------------------------------------------------------
  // Dispatcher, as a function of the raw values

  function Assemble(item: Result<Item>, createdDate: string, ct: RawContentType): Result<Contribution> {
    match item
    case Err(e) => Err(e)
    case Ok(i) =>
      match ParseContentType(ct)
      case Err(e) => Err(e)
      case Ok(contentType) => Ok(Contribution(i, createdDate, contentType))
  }

  /** `parseContribution(raw)` on the values of the raw record: the item is mapped before the content type is resolved. */
  function ContributionOf(ps: Parsers, ct: RawContentType, createdDate: string, v: ItemValue): (r: Result<Contribution>)
    ensures r.Ok? ==> ct.name in KnownNames && r.value.createdDate == createdDate
  {
    if ct.name in CommentNames then Assemble(CommentOf(ps, v), createdDate, ct)
    else if ct.name == "paper" then Assemble(PaperOf(ps, v), createdDate, ct)
    else if ct.name == "researchhubpost" then Assemble(PostOf(ps, v), createdDate, ct)
    else if ct.name == "hypothesis" then Assemble(HypothesisOf(ps, v), createdDate, ct)
    else Err(UnknownTypePrefix + ct.name)
  }

  /** The actor a content type's mapper credits. */
  function CreditedActor(t: ContentTypeName, v: ItemValue): Option<ActorValue> {
    if t == PaperType then v.uploaded_by else v.created_by
  }

  /** Whether the mapper of a content type can map an item: its actor has a profile, and a paper has a document. */
  predicate Mappable(t: ContentTypeName, v: ItemValue) {
    Creditable(CreditedActor(t, v)) && (t == PaperType ==> v.unified_document.Some?)
  }

  /**
    The dispatcher succeeds exactly on a known name whose mapper can map the
    item; the item variant then agrees with the content type, the content type
    is the resolver's, and the date is copied.
   */
  lemma {:induction false} DispatchAgreesWithTag(ps: Parsers, ct: RawContentType, createdDate: string, v: ItemValue)
    ensures var r := ContributionOf(ps, ct, createdDate, v);
      r.Ok? <==> ct.name in KnownNames && Mappable(ParseContentType(ct).value.name, v)
    ensures var r := ContributionOf(ps, ct, createdDate, v);
      r.Ok? ==> && r.value.createdDate == createdDate
                && r.value.contentType == ParseContentType(ct).value
                && KindOf(r.value.item) == r.value.contentType.name
                && ct.name in RawNames(KindOf(r.value.item))
  {
    if ct.name in CommentNames {
      assert ParseContentType(ct).value.name == CommentType;
    } else if ct.name == "paper" {
      assert ParseContentType(ct).value.name == PaperType;
    } else if ct.name == "researchhubpost" {
      assert ParseContentType(ct).value.name == PostType;
    } else if ct.name == "hypothesis" {
      assert ParseContentType(ct).value.name == HypothesisType;
    }
  }

  /** An unrecognised name fails with the resolver's error and no partial result. */
  lemma UnknownNameFails(ps: Parsers, ct: RawContentType, createdDate: string, v: ItemValue)
    requires ct.name !in KnownNames
    ensures ContributionOf(ps, ct, createdDate, v) == Err(UnknownTypePrefix + ct.name)
    ensures ContributionOf(ps, ct, createdDate, v) == Err(ParseContentType(ct).message)
  {
  }

  // ---------------------------------------------------------------------------
  // What parsing leaves behind in the raw record

  function NamesCopied(a: Option<ActorValue>): Option<ActorValue> {
    match a
    case None => None
    case Some(actor) => Some(CopyNames(actor))
  }

  /**
    The item value after `parseContribution` has run on it. Only the credited
    actor's profile and, for a paper, the document are written; a paper
    without a document is left alone, because the first write throws.
   */
  function AfterParse(ct: RawContentType, v: ItemValue): (r: ItemValue)
    ensures r.id == v.id && r.title == v.title && r.slug == v.slug && r.plain_text == v.plain_text
    ensures ct.name != "paper" ==> r.uploaded_by == v.uploaded_by && r.unified_document == v.unified_document
    ensures ct.name == "paper" ==> r.created_by == v.created_by
    ensures ct.name !in KnownNames ==> r == v
    ensures ct.name == "paper" && v.unified_document.None? ==> r == v
  {
    if ct.name == "paper" then
      if v.unified_document.None? then v
      else v.(uploaded_by := NamesCopied(v.uploaded_by), unified_document := WithDocuments(v))
    else if ct.name in KnownNames then v.(created_by := NamesCopied(v.created_by))
    else v
  }

  /** Copying the names twice is copying them once, and the parsed actor does not change. */
  lemma CopyNamesStable(ps: Parsers, a: ActorValue)
    ensures CopyNames(CopyNames(a)) == CopyNames(a)
    ensures CreatedByFrom(ps, Some(CopyNames(a))) == CreatedByFrom(ps, Some(a))
  {
  }

  /**
    Parsing a record a second time, after the first run has written into it,
    gives the same result: the writes only store what the mappers use anyway.
   */
  lemma {:induction false} ReparseGivesSameResult(ps: Parsers, ct: RawContentType, createdDate: string, v: ItemValue)
    ensures ContributionOf(ps, ct, createdDate, AfterParse(ct, v)) == ContributionOf(ps, ct, createdDate, v)
    ensures AfterParse(ct, AfterParse(ct, v)) == AfterParse(ct, v)
  {
    var w := AfterParse(ct, v);
    if ct.name == "paper" && v.unified_document.Some? {
      assert WithDocuments(w) == WithDocuments(v);
      if v.uploaded_by.Some? {
        CopyNamesStable(ps, v.uploaded_by.value);
      }
    } else if ct.name in KnownNames && ct.name != "paper" {
      if v.created_by.Some? {
        CopyNamesStable(ps, v.created_by.value);
      }
    }
  }

  // ---------------------------------------------------------------------------
  // The mappers on the raw objects

  /**
    `parseCreatedBy(raw)`: overwrites the nested profile's names with the
    actor's, then maps. An absent actor or profile throws before anything is
    written.
   */
  method ParseCreatedBy(ps: Parsers, raw: RawActor?) returns (r: Result<CreatedBy>)
    modifies ProfileOf(raw)
    ensures r == CreatedByFrom(ps, old(ActorValueOf(raw)))
    ensures raw != null ==> raw.Value() == CopyNames(old(raw.Value()))
  {
    if raw == null {
      return Err(MissingActorError);
    }
    if raw.author_profile == null {
      return Err(MissingProfileError);
    }
    raw.author_profile.first_name := raw.first_name;
    raw.author_profile.last_name := raw.last_name;
    r := Ok(CreatedBy(raw.id, raw.first_name, raw.last_name, ps.parseAuthorProfile(raw.author_profile.Value())));
  }

  method ParseCommentContribution(ps: Parsers, raw: RawItem) returns (r: Result<Item>)
    modifies ProfileOf(raw.created_by)
    ensures r == CommentOf(ps, old(raw.Value()))
    ensures raw.created_by != null ==> raw.created_by.Value() == CopyNames(old(raw.created_by.Value()))
  {
    var createdBy := ParseCreatedBy(ps, raw.created_by);
    if createdBy.Err? {
      return Err(createdBy.message);
    }
    r := Ok(CommentContribution(ps.parseUnifiedDocument(DocumentValueOf(raw.unified_document)), raw.plain_text, createdBy.value, raw.id));
  }

  /**
    `parsePaperContribution(raw)`: first injects `documents` into the unified
    document (this write happens even when the uploader turns out to be
    absent), then credits `uploaded_by`. An absent document throws before
    anything is written.
   */
  method ParsePaperContribution(ps: Parsers, raw: RawItem) returns (r: Result<Item>)
    modifies DocumentOf(raw.unified_document), ProfileOf(raw.uploaded_by)
    ensures r == PaperOf(ps, old(raw.Value()))
    ensures raw.unified_document == null ==> raw.Value() == old(raw.Value())
    ensures raw.unified_document != null ==> Some(raw.unified_document.Value()) == WithDocuments(old(raw.Value()))
    ensures raw.unified_document != null && raw.uploaded_by != null ==>
              raw.uploaded_by.Value() == CopyNames(old(raw.uploaded_by.Value()))
  {
    if raw.unified_document == null {
      return Err(MissingDocumentError);
    }
    raw.unified_document.documents := Some(DocumentsStub(raw.id, raw.title, raw.slug));
    var createdBy := ParseCreatedBy(ps, raw.uploaded_by);
    if createdBy.Err? {
      return Err(createdBy.message);
    }
    r := Ok(PaperContribution(ps.parseUnifiedDocument(Some(raw.unified_document.Value())), raw.title, raw.slug, createdBy.value, raw.id));
  }

  method ParsePostContribution(ps: Parsers, raw: RawItem) returns (r: Result<Item>)
    modifies ProfileOf(raw.created_by)
    ensures r == PostOf(ps, old(raw.Value()))
    ensures raw.created_by != null ==> raw.created_by.Value() == CopyNames(old(raw.created_by.Value()))
  {
    var createdBy := ParseCreatedBy(ps, raw.created_by);
    if createdBy.Err? {
      return Err(createdBy.message);
    }
    r := Ok(PostContribution(ps.parseUnifiedDocument(DocumentValueOf(raw.unified_document)), raw.title, raw.slug, createdBy.value, raw.id));
  }

  method ParseHypothesisContribution(ps: Parsers, raw: RawItem) returns (r: Result<Item>)
    modifies ProfileOf(raw.created_by)
    ensures r == HypothesisOf(ps, old(raw.Value()))
    ensures raw.created_by != null ==> raw.created_by.Value() == CopyNames(old(raw.created_by.Value()))
  {
    var createdBy := ParseCreatedBy(ps, raw.created_by);
    if createdBy.Err? {
      return Err(createdBy.message);
    }
    r := Ok(HypothesisContribution(ps.parseUnifiedDocument(DocumentValueOf(raw.unified_document)), raw.title, raw.slug, createdBy.value, raw.id));
  }

  /** The objects the dispatcher may write into for a given record: none for an unknown name. */
  function Touched(raw: RawContribution): set<object> {
    if raw.content_type.name == "paper" then DocumentOf(raw.item.unified_document) + ProfileOf(raw.item.uploaded_by)
    else if raw.content_type.name in KnownNames then ProfileOf(raw.item.created_by)
    else {}
  }

  /** The two actors' profiles are distinct objects (or one of them is absent). */
  predicate SeparateProfiles(item: RawItem) {
    ProfileOf(item.created_by) == {} || ProfileOf(item.uploaded_by) == {}
      || item.created_by.author_profile != item.uploaded_by.author_profile
  }

  /**
    `parseContribution(raw)`: dispatches on `content_type.name`, maps the item
    with the chosen mapper, then resolves the content type. Only the chosen
    mapper's objects are written; when the profiles are not shared, the raw
    item is left exactly as `AfterParse` describes.
   */
  method ParseContribution(ps: Parsers, raw: RawContribution) returns (r: Result<Contribution>)
    modifies Touched(raw)
    ensures r == ContributionOf(ps, raw.content_type, raw.created_date, old(raw.item.Value()))
    ensures SeparateProfiles(raw.item) ==> raw.item.Value() == AfterParse(raw.content_type, old(raw.item.Value()))
  {
    var name := raw.content_type.name;
    var item: Result<Item>;
    if name in CommentNames {
      item := ParseCommentContribution(ps, raw.item);
    } else if name == "paper" {
      item := ParsePaperContribution(ps, raw.item);
    } else if name == "researchhubpost" {
      item := ParsePostContribution(ps, raw.item);
    } else if name == "hypothesis" {
      item := ParseHypothesisContribution(ps, raw.item);
    } else {
      return Err(UnknownTypePrefix + name);
    }
    r := Assemble(item, raw.created_date, raw.content_type);
  }
}
