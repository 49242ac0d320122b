/**
  The full author profile of the profile pages (`parseFullAuthorProfile`): a
  shape mapper from the snake_case API record to the camelCase client record.
  The lighter author parser and the institution parser live elsewhere and are
  passed in as functions.
 */
module AuthorProfile {
  import opened Common

  /** What the lighter `parseAuthorProfile` returns; not part of this model. */
  type AuthorProfile(==)
  /** What `parseInstitution` returns; not part of this model. */
  type Institution(==)
  /** The raw JSON handed to those two parsers. */
  type RawAuthor(==)
  type RawInstitution(==)

  /** The two collaborators the mapper delegates to. */
  datatype Parsers = Parsers(
    parseAuthorProfile: RawAuthor -> AuthorProfile,
    parseInstitution: RawInstitution -> Institution)

  datatype RawActivity = RawActivity(year: int, works_count: int, citation_count: int)
  datatype RawAuthorInstitution = RawAuthorInstitution(id: Id, institution: RawInstitution, years: seq<int>)
  datatype RawSummaryStats = RawSummaryStats(works_count: int, citation_count: int, two_year_mean_citedness: real)

  /**
    The API record. `None` is a key that is absent or null. The four nested
    fields the mapper dereferences without a default are optional here so that
    their absence can be modelled.
   */
  datatype RawFullAuthorProfile = RawFullAuthorProfile(
    id: Id,
    profile_image: Option<string>,
    first_name: string,
    last_name: string,
    description: Option<string>,
    is_verified: bool,
    headline: Option<string>,
    is_hub_editor: bool,
    openalex_ids: Option<seq<string>>,
    achievements: Option<seq<string>>,
    open_access_pct: real,
    h_index: int,
    i10_index: int,
    created_date: string,
    coauthors: Option<seq<RawAuthor>>,
    summary_stats: Option<RawSummaryStats>,
    activity_by_year: Option<seq<RawActivity>>,
    institutions: Option<seq<RawAuthorInstitution>>)

  datatype Activity = Activity(year: int, worksCount: int, citationCount: int)
  datatype AuthorInstitution = AuthorInstitution(id: Id, institution: Institution, years: seq<int>)
  datatype SummaryStats = SummaryStats(worksCount: int, citationCount: int, twoYearMeanCitedness: real)

  datatype FullAuthorProfile = FullAuthorProfile(
    id: Id,
    profileImage: Option<string>,
    firstName: string,
    lastName: string,
    url: string,
    description: Option<string>,
    isVerified: bool,
    headline: string,
    isHubEditor: bool,
    openAlexIds: seq<string>,
    achievements: seq<string>,
    openAccessPct: real,
    hIndex: int,
    i10Index: int,
    createdDate: string,
    coauthors: seq<AuthorProfile>,
    summaryStats: SummaryStats,
    activityByYear: seq<Activity>,
    institutions: seq<AuthorInstitution>)

  /** `${id}` in a template literal. */
  function IdText(id: Id): string {
    match id
    case NumId(n) => DecimalText(n)
    case StrId(s) => s
  }

  const UrlHead: string := "/user/"
  const UrlTail: string := "/overview"

  /** The profile page of an author. */
  function ProfileUrl(id: Id): (url: string)
    ensures |url| == |UrlHead| + |IdText(id)| + |UrlTail|
    ensures url[..|UrlHead|] == UrlHead && url[|url| - |UrlTail|..] == UrlTail
    ensures url[|UrlHead|..|url| - |UrlTail|] == IdText(id)
  {
    var url := UrlHead + IdText(id) + UrlTail;
    assert url[..|UrlHead|] == UrlHead;
    assert url[|url| - |UrlTail|..] == UrlTail;
    assert url[|UrlHead|..|url| - |UrlTail|] == IdText(id);
    url
  }

  /** The id text sits between the fixed head and tail of the URL. */
  function UrlIdText(url: string): (t: Option<string>)
    ensures t.Some? ==> url == UrlHead + t.value + UrlTail
  {
    if |url| >= |UrlHead| + |UrlTail| && url[..|UrlHead|] == UrlHead && url[|url| - |UrlTail|..] == UrlTail
    then
      var t := url[|UrlHead|..|url| - |UrlTail|];
      assert url == url[..|UrlHead|] + t + url[|url| - |UrlTail|..];
      Some(t)
    else None
  }

  /** The URL gives back its id; for numeric ids the number itself is recovered. */
  lemma ProfileUrlRoundTrip(id: Id)
    ensures UrlIdText(ProfileUrl(id)) == Some(IdText(id))
    ensures id.NumId? ==> DecimalValue(UrlIdText(ProfileUrl(id)).value) == id.n
  {
    var url := ProfileUrl(id);
    assert url[..|UrlHead|] == UrlHead;
    assert url[|url| - |UrlTail|..] == UrlTail;
    assert url[|UrlHead|..|url| - |UrlTail|] == IdText(id);
    if id.NumId? {
      DecimalRoundTrip(id.n);
    }
  }

  /** Two numeric ids share a profile URL only if they are the same id. */
  lemma ProfileUrlInjective(a: nat, b: nat)
    requires ProfileUrl(NumId(a)) == ProfileUrl(NumId(b))
    ensures a == b
  {
    ProfileUrlRoundTrip(NumId(a));
    ProfileUrlRoundTrip(NumId(b));
  }

  function ActivityOf(a: RawActivity): Activity {
    Activity(a.year, a.works_count, a.citation_count)
  }

  function InstitutionOf(p: Parsers, inst: RawAuthorInstitution): AuthorInstitution {
    AuthorInstitution(inst.id, p.parseInstitution(inst.institution), inst.years)
  }

  function SummaryStatsOf(s: RawSummaryStats): SummaryStats {
    SummaryStats(s.works_count, s.citation_count, s.two_year_mean_citedness)
  }

  /** `xs || []` for a list-valued key: arrays are truthy even when empty. */
  function OrEmpty<T>(xs: Option<seq<T>>): seq<T> {
    match xs
    case Some(v) => v
    case None => []
  }

  /** The name of the first nested field, in evaluation order, that is dereferenced while absent. */
  function FirstMissing(raw: RawFullAuthorProfile): Option<string> {
    if raw.coauthors.None? then Some("coauthors")
    else if raw.summary_stats.None? then Some("summary_stats")
    else if raw.activity_by_year.None? then Some("activity_by_year")
    else if raw.institutions.None? then Some("institutions")
    else None
  }

  /** The error raised for an absent nested field; the engine's own TypeError text is not modelled. */
  function MissingFieldMessage(field: string): string {
    "MissingRequiredField: " + field
  }

  /** Whether all four nested fields the mapper relies on are present. */
  predicate HasRequiredFields(raw: RawFullAuthorProfile) {
    raw.coauthors.Some? && raw.summary_stats.Some? && raw.activity_by_year.Some? && raw.institutions.Some?
  }

  /**
    `parseFullAuthorProfile(raw)`. Scalars are copied, `headline` and the two
    optional lists get defaults, the three lists are mapped element by element,
    and an absent nested field throws.
   */
  function ParseFullAuthorProfile(p: Parsers, raw: RawFullAuthorProfile): (r: Result<FullAuthorProfile>)
    ensures r.Ok? <==> HasRequiredFields(raw)
    ensures r.Err? ==> FirstMissing(raw).Some? && r.message == MissingFieldMessage(FirstMissing(raw).value)
    ensures r.Ok? ==>
      && r.value.id == raw.id && r.value.firstName == raw.first_name && r.value.lastName == raw.last_name
      && r.value.profileImage == raw.profile_image && r.value.description == raw.description
      && r.value.isVerified == raw.is_verified && r.value.isHubEditor == raw.is_hub_editor
      && r.value.openAccessPct == raw.open_access_pct && r.value.hIndex == raw.h_index
      && r.value.i10Index == raw.i10_index && r.value.createdDate == raw.created_date
      && r.value.url == UrlHead + IdText(raw.id) + UrlTail
  {
    match FirstMissing(raw)
    case Some(field) => Err(MissingFieldMessage(field))
    case None =>
      Ok(FullAuthorProfile(
        id := raw.id,
        profileImage := raw.profile_image,
        firstName := raw.first_name,
        lastName := raw.last_name,
        url := ProfileUrl(raw.id),
        description := raw.description,
        isVerified := raw.is_verified,
        headline := match raw.headline case Some(h) => h case None => "",
        isHubEditor := raw.is_hub_editor,
        openAlexIds := OrEmpty(raw.openalex_ids),
        achievements := OrEmpty(raw.achievements),
        openAccessPct := raw.open_access_pct,
        hIndex := raw.h_index,
        i10Index := raw.i10_index,
        createdDate := raw.created_date,
        coauthors := MapSeq(p.parseAuthorProfile, raw.coauthors.value),
        summaryStats := SummaryStatsOf(raw.summary_stats.value),
        activityByYear := MapSeq(ActivityOf, raw.activity_by_year.value),
        institutions := MapSeq((inst: RawAuthorInstitution) => InstitutionOf(p, inst), raw.institutions.value)))
  }

  /** The three mapped lists keep length and order, element by element. */
  lemma ListsMappedInOrder(p: Parsers, raw: RawFullAuthorProfile)
    requires HasRequiredFields(raw)
    ensures var r := ParseFullAuthorProfile(p, raw).value;
      && |r.coauthors| == |raw.coauthors.value|
      && (forall i :: 0 <= i < |r.coauthors| ==> r.coauthors[i] == p.parseAuthorProfile(raw.coauthors.value[i]))
      && |r.activityByYear| == |raw.activity_by_year.value|
      && (forall i :: 0 <= i < |r.activityByYear| ==>
            var a := raw.activity_by_year.value[i];
            r.activityByYear[i] == Activity(a.year, a.works_count, a.citation_count))
      && |r.institutions| == |raw.institutions.value|
      && (forall i :: 0 <= i < |r.institutions| ==>
            var inst := raw.institutions.value[i];
            r.institutions[i] == AuthorInstitution(inst.id, p.parseInstitution(inst.institution), inst.years))
  {
  }

  /** The summary statistics are renamed, not recomputed. */
  lemma SummaryStatsRenamed(p: Parsers, raw: RawFullAuthorProfile)
    requires HasRequiredFields(raw)
    ensures var s := raw.summary_stats.value; var r := ParseFullAuthorProfile(p, raw).value;
      r.summaryStats == SummaryStats(s.works_count, s.citation_count, s.two_year_mean_citedness)
  {
  }

  /** Defaults: the raw value when present, otherwise the empty string or list. */
  lemma DefaultsApplied(p: Parsers, raw: RawFullAuthorProfile)
    requires HasRequiredFields(raw)
    ensures var r := ParseFullAuthorProfile(p, raw).value;
      && (raw.headline.Some? ==> r.headline == raw.headline.value)
      && (raw.headline.None? ==> r.headline == "")
      && (raw.openalex_ids.Some? ==> r.openAlexIds == raw.openalex_ids.value)
      && (raw.openalex_ids.None? ==> r.openAlexIds == [])
      && (raw.achievements.Some? ==> r.achievements == raw.achievements.value)
      && (raw.achievements.None? ==> r.achievements == [])
  {
  }

  /**
    Present-but-empty lists parse to empty lists, whereas an absent one makes
    the parse fail: the nested lists get no default, unlike the optional ones.
   */
  lemma EmptyVersusAbsent(p: Parsers, raw: RawFullAuthorProfile)
    requires raw.coauthors == Some([]) && raw.activity_by_year == Some([]) && raw.institutions == Some([])
    requires raw.summary_stats.Some?
    ensures ParseFullAuthorProfile(p, raw).Ok?
    ensures var r := ParseFullAuthorProfile(p, raw).value;
      r.coauthors == [] && r.activityByYear == [] && r.institutions == []
    ensures ParseFullAuthorProfile(p, raw.(coauthors := None)).Err?
    ensures ParseFullAuthorProfile(p, raw.(activity_by_year := None)).Err?
    ensures ParseFullAuthorProfile(p, raw.(institutions := None)).Err?
    ensures ParseFullAuthorProfile(p, raw.(summary_stats := None)).Err?
    ensures ParseFullAuthorProfile(p, raw.(openalex_ids := None)).Ok?
    ensures ParseFullAuthorProfile(p, raw.(achievements := None)).Ok?
  {
  }
}
