/**
 * The list handler of src/server.ts: how the query parameters become the
 * `where`, `orderBy`, `skip` and `take` handed to the repository, and the
 * pagination block of the response. The repository's own evaluation of the
 * query (filtering, ordering, counting) is not modelled; its count is an input.
 */
module ListQuery {
  import opened Wrappers
  import opened Text

  /** The query parameters after validation; absent ones are `None`. */
  datatype ListParams = ListParams(
    clientId: Option<int>,
    locationId: Option<int>,
    serviceTypeId: Option<int>,
    clientName: Option<JsString>,
    locationName: Option<JsString>,
    serviceTypeName: Option<JsString>,
    serviceDate: Option<JsString>,
    page: Option<int>,
    limit: Option<int>,
    sortBy: Option<JsString>,
    sortOrder: Option<JsString>)

  /** The filter on one related entity: none, its numeric id, or its name. */
  datatype EntityFilter = AnyEntity | ById(id: int) | ByName(name: JsString)

  /** Service performed on the calendar day starting at `start` (a parsed date). */
  datatype DayWindow = DayStarting(start: int)

  datatype Where = Where(
    client: EntityFilter,
    location: EntityFilter,
    serviceType: EntityFilter,
    serviceDate: Option<DayWindow>)

  /** The seven sortable columns. */
  datatype SortField = Id | OriginalName | MimeType | ByteSize | ServiceDate | UploadDate | UpdatedAt

  datatype Direction = Asc | Desc

  /** An `orderBy` object: exactly one field and its direction. */
  datatype OrderBy = OrderBy(field: SortField, direction: Direction)

  datatype FindMany = FindMany(where: Where, skip: int, take: int, orderBy: OrderBy)

  /** The two repository calls: the page query and the count query. */
  datatype Plan = Plan(findMany: FindMany, countWhere: Where)

  datatype Pagination = Pagination(totalItems: nat, totalPages: nat, currentPage: int, itemsPerPage: int)

  const DefaultPage := 1
  const DefaultLimit := 10
  const MaxLimit := 100

  const InvalidDateMessage: JsString := Lit("Formato de fechaRealizacionServicio inválido. Usar YYYY-MM-DD.")

  /** JavaScript truthiness of an optional number: absent and 0 are falsy. */
  predicate IdGiven(id: Option<int>) {
    id.Some? && id.value != 0
  }

  /** The bounds the request validator enforces first: page at least 1, limit in 1..100. */
  predicate ValidPaging(p: ListParams) {
    && (p.page.Some? ==> p.page.value >= 1)
    && (p.limit.Some? ==> 1 <= p.limit.value <= MaxLimit)
  }

  // ---------------------------------------------------------------------------
  // where

  /** The id filter when an id is given, else the name filter when a name is given. */
  function EntityFilterOf(id: Option<int>, name: Option<JsString>): (f: EntityFilter)
    ensures f.ById? <==> IdGiven(id)
    ensures f.ByName? <==> !IdGiven(id) && Truthy(name)
    ensures f.ById? ==> f.id == id.value
    ensures f.ByName? ==> f.name == name.value
  {
    if IdGiven(id) then ById(id.value)
    else if Truthy(name) then ByName(name.value)
    else AnyEntity
  }

  /** A given id overrides the name: the name then has no influence on the filter. */
  lemma IdOverridesName(id: Option<int>, name1: Option<JsString>, name2: Option<JsString>)
    requires IdGiven(id)
    ensures EntityFilterOf(id, name1) == EntityFilterOf(id, name2)
  {
  }

  /**
   * The `where` object, or the 400 message when a service date is given that
   * does not parse. `parseDate` stands for `new Date(text)`.
   */
  function BuildWhere(p: ListParams, parseDate: JsString -> Option<int>): (r: Result<Where, JsString>)
    ensures r.Failure? <==> Truthy(p.serviceDate) && parseDate(p.serviceDate.value).None?
    ensures r.Failure? ==> r.error == InvalidDateMessage
    ensures r.Success? ==>
      && r.value.client == EntityFilterOf(p.clientId, p.clientName)
      && r.value.location == EntityFilterOf(p.locationId, p.locationName)
      && r.value.serviceType == EntityFilterOf(p.serviceTypeId, p.serviceTypeName)
      && (r.value.serviceDate.Some? <==> Truthy(p.serviceDate))
      && (r.value.serviceDate.Some? ==> r.value.serviceDate.value == DayStarting(parseDate(p.serviceDate.value).value))
  {
    var client := EntityFilterOf(p.clientId, p.clientName);
    var location := EntityFilterOf(p.locationId, p.locationName);
    var serviceType := EntityFilterOf(p.serviceTypeId, p.serviceTypeName);
    if Truthy(p.serviceDate) then
      match parseDate(p.serviceDate.value)
      case None => Failure(InvalidDateMessage)
      case Some(date) => Success(Where(client, location, serviceType, Some(DayStarting(date))))
    else
      Success(Where(client, location, serviceType, None))
  }

  // ---------------------------------------------------------------------------
  // orderBy

  /** The column name of each sortable field, as the request spells it. */
  function FieldName(f: SortField): (r: JsString)
    ensures 2 <= |r| <= 26
  {
    match f
    case Id => Lit("id")
    case OriginalName => Lit("nombre_original_archivo")
    case MimeType => Lit("mime_type")
    case ByteSize => Lit("tamano_bytes")
    case ServiceDate => Lit("fecha_realizacion_servicio")
    case UploadDate => Lit("fecha_subida")
    case UpdatedAt => Lit("updated_at")
  }

  /** `sortBy` (default `fecha_subida`), falling back to `fecha_subida` outside the whitelist. */
  function SortFieldOf(sortBy: Option<JsString>): (f: SortField)
    ensures f == UploadDate || sortBy == Some(FieldName(f))
  {
    if sortBy.None? then UploadDate
    else
      var s := sortBy.value;
      if s == FieldName(Id) then Id
      else if s == FieldName(OriginalName) then OriginalName
      else if s == FieldName(MimeType) then MimeType
      else if s == FieldName(ByteSize) then ByteSize
      else if s == FieldName(ServiceDate) then ServiceDate
      else if s == FieldName(UploadDate) then UploadDate
      else if s == FieldName(UpdatedAt) then UpdatedAt
      else UploadDate
  }

  /** `sortOrder` (default `desc`), falling back to `desc` for anything but `asc` or `desc`. */
  function DirectionOf(sortOrder: Option<JsString>): (d: Direction)
    ensures d == Asc <==> sortOrder == Some(Lit("asc"))
  {
    if sortOrder == Some(Lit("asc")) then Asc else Desc
  }

  function OrderByOf(p: ListParams): (r: OrderBy)
    ensures r.field == UploadDate || p.sortBy == Some(FieldName(r.field))
    ensures r.direction == Asc <==> p.sortOrder == Some(Lit("asc"))
  {
    OrderBy(SortFieldOf(p.sortBy), DirectionOf(p.sortOrder))
  }

  /** A whitelisted name selects its own field; any other value selects `fecha_subida`. */
  lemma SortFieldWhitelist(sortBy: Option<JsString>)
    ensures forall f: SortField :: sortBy == Some(FieldName(f)) ==> SortFieldOf(sortBy) == f
    ensures (forall f: SortField :: sortBy != Some(FieldName(f))) ==> SortFieldOf(sortBy) == UploadDate
  {
    forall f: SortField | sortBy == Some(FieldName(f))
      ensures SortFieldOf(sortBy) == f
    {
      FieldNamesDistinct(f);
    }
  }

  /** Distinct fields have distinct column names. */
  lemma FieldNamesDistinct(f: SortField)
    ensures forall g: SortField :: g != f ==> FieldName(g) != FieldName(f)
  {
    forall g: SortField | g != f
      ensures FieldName(g) != FieldName(f)
    {
      // The names differ in length or, for the two of length 12, in their first letter.
      assert |FieldName(g)| != |FieldName(f)| || FieldName(g)[0] != FieldName(f)[0];
    }
  }

  // ---------------------------------------------------------------------------
  // pagination

  /** `page`, 1 when absent. */
  function PageOf(p: ListParams): (n: int)
    ensures p.page.None? ==> n == DefaultPage
    ensures p.page.Some? ==> n == p.page.value
    ensures ValidPaging(p) ==> n >= 1
  {
    if p.page.Some? then p.page.value else DefaultPage
  }

  /** `limit`, 10 when absent. */
  function LimitOf(p: ListParams): (n: int)
    ensures p.limit.None? ==> n == DefaultLimit
    ensures p.limit.Some? ==> n == p.limit.value
    ensures ValidPaging(p) ==> 1 <= n <= MaxLimit
  {
    if p.limit.Some? then p.limit.value else DefaultLimit
  }

  /** Items skipped before page `page`. */
  function Skip(page: int, limit: int): (s: int)
    requires page >= 1 && limit >= 1
    ensures s >= 0
  {
    (page - 1) * limit
  }

  /** `Math.ceil(count / limit)` on integers: the fewest pages of `limit` items that hold `count`. */
  function TotalPages(count: nat, limit: int): (n: nat)
    requires limit >= 1
    ensures count <= n * limit
    ensures n == 0 || (n - 1) * limit < count
  {
    (count + limit - 1) / limit
  }

  /** Each of the `count` items is on exactly one page, and that page is within `TotalPages`. */
  lemma ItemOnItsPage(count: nat, limit: int, i: int)
    requires limit >= 1
    requires 0 <= i < count
    ensures var page := i / limit + 1;
      && 1 <= page <= TotalPages(count, limit)
      && Skip(page, limit) <= i < Skip(page, limit) + limit
  {
  }

  /** Pages after the last one start past the end: they are empty. */
  lemma PagesAfterLastAreEmpty(count: nat, limit: int, page: int)
    requires limit >= 1
    requires page > TotalPages(count, limit)
    ensures Skip(page, limit) >= count
  {
  }

  /** The page query and the count query the handler issues, or its 400 message. */
  function BuildPlan(p: ListParams, parseDate: JsString -> Option<int>): (r: Result<Plan, JsString>)
    requires ValidPaging(p)
    ensures r.Failure? <==> BuildWhere(p, parseDate).Failure?
    ensures r.Success? ==>
      var q := r.value.findMany;
      && q.where == r.value.countWhere == BuildWhere(p, parseDate).value
      && q.skip == (PageOf(p) - 1) * LimitOf(p)
      && q.take == LimitOf(p)
      && 1 <= q.take <= MaxLimit
      && q.orderBy == OrderByOf(p)
  {
    match BuildWhere(p, parseDate)
    case Failure(message) => Failure(message)
    case Success(where) =>
      Success(Plan(FindMany(where, Skip(PageOf(p), LimitOf(p)), LimitOf(p), OrderByOf(p)), where))
  }

  /** The pagination block, given the count query's result. */
  function PaginationOf(p: ListParams, totalItems: nat): (r: Pagination)
    requires ValidPaging(p)
    ensures r.totalItems == totalItems
    ensures r.currentPage == PageOf(p) && r.itemsPerPage == LimitOf(p)
    ensures r.totalItems <= r.totalPages * r.itemsPerPage
    ensures r.totalPages == 0 || (r.totalPages - 1) * r.itemsPerPage < r.totalItems
  {
    Pagination(totalItems, TotalPages(totalItems, LimitOf(p)), PageOf(p), LimitOf(p))
  }
}
