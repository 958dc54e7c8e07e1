/** The publication service: the list query with two extra fields, the
    multipart payload builder `toPublicationFormData`, and five endpoints. */
module PublicationServices {
  import opened Wrappers
  import opened JsValues
  import opened WebForms
  import opened ApiErrors
  import opened Http
  import opened QueryString

  datatype Language = Id | En

  datatype PublicationType = News | Article

  function LanguageText(l: Language): string {
    match l
    case Id => "id"
    case En => "en"
  }

  function TypeText(t: PublicationType): string {
    match t
    case News => "News"
    case Article => "Article"
  }

  // ---------------------------------------------------------------------
  // List query

  /** `PublicationParams`. */
  datatype PublicationParams = PublicationParams(
    page: Option<int>,
    limit: Option<int>,
    search: Option<string>,
    sortBy: Option<string>,
    sortOrder: Option<SortOrder>,
    lang: Option<Language>,
    pubType: Option<PublicationType>)

  const NoPublicationParams := PublicationParams(None, None, None, None, None, None, None)

  function CommonParams(p: PublicationParams): ListParams {
    ListParams(p.page, p.limit, p.search, p.sortBy, p.sortOrder)
  }

  function LanguageParam(l: Option<Language>): (r: Option<string>)
    ensures r.Some? <==> l.Some?
  {
    if l.Some? then Some(LanguageText(l.value)) else None
  }

  function TypeParam(t: Option<PublicationType>): (r: Option<string>)
    ensures r.Some? <==> t.Some?
  {
    if t.Some? then Some(TypeText(t.value)) else None
  }

  /** The two fields only the publication list has. */
  function ExtraFields(p: PublicationParams): seq<Candidate> {
    [("lang", LanguageParam(p.lang)), ("type", TypeParam(p.pubType))]
  }

  function PublicationFields(p: PublicationParams): seq<Candidate> {
    ListFields(CommonParams(p)) + ExtraFields(p)
  }

  const PublicationKeys: seq<string> := ListKeys + ["lang", "type"]

  /** The entries `getPublications` leaves: at most one per key, in the
      order page, limit, search, sortBy, sortOrder, lang, type. */
  function PublicationQuery(p: PublicationParams): (q: seq<Pair>)
    ensures |q| <= |PublicationKeys|
    ensures IsSubsequence(KeysOf(q), PublicationKeys)
    ensures forall k :: CountKey(q, k) <= 1
  {
    PublicationFieldsDistinct(p);
    PresentOrder(PublicationFields(p));
    PresentKeysOnce(PublicationFields(p));
    Present(PublicationFields(p))
  }

  lemma PublicationFieldsDistinct(p: PublicationParams)
    ensures KeysOf(PublicationFields(p)) == PublicationKeys
    ensures DistinctKeys(PublicationFields(p))
  {
    var extra: seq<Candidate> := [("lang", LanguageParam(p.lang)), ("type", TypeParam(p.pubType))];
    ListFieldsDistinct(CommonParams(p));
    KeysOfConcat(ListFields(CommonParams(p)), extra);
    assert KeysOf(extra) == ["lang", "type"];
    var fs := PublicationFields(p);
    forall i, j | 0 <= i < j < |fs| ensures fs[i].0 != fs[j].0 {
      assert fs[i].0 == KeysOf(fs)[i] && fs[j].0 == KeysOf(fs)[j] by {
        KeysOfIndex(fs, i);
        KeysOfIndex(fs, j);
      }
    }
  }

  /** `set` replaces, so no key appears twice. */
  lemma PublicationQueryKeysOnce(p: PublicationParams, k: string)
    ensures CountKey(PublicationQuery(p), k) <= 1
  {
    PublicationFieldsDistinct(p);
    PresentAtMostOnce(PublicationFields(p), k);
  }

  /** Exactly the truthy fields appear, with their values: page 0 and an
      empty search are left out. */
  lemma PublicationQueryValues(p: PublicationParams)
    ensures Lookup(PublicationQuery(p), "page") == NumberParam(p.page)
    ensures Lookup(PublicationQuery(p), "limit") == NumberParam(p.limit)
    ensures Lookup(PublicationQuery(p), "search") == TextParam(p.search)
    ensures Lookup(PublicationQuery(p), "sortBy") == TextParam(p.sortBy)
    ensures Lookup(PublicationQuery(p), "sortOrder") == SortParam(p.sortOrder)
    ensures Lookup(PublicationQuery(p), "lang") == LanguageParam(p.lang)
    ensures Lookup(PublicationQuery(p), "type") == TypeParam(p.pubType)
    ensures forall k :: k !in PublicationKeys ==> Lookup(PublicationQuery(p), k) == None
  {
    CommonQueryValues(p);
    ExtraQueryValues(p);
    forall k | k !in PublicationKeys ensures Lookup(PublicationQuery(p), k) == None {
      OtherKeyAbsent(p, k);
    }
  }

  /** `lang` and `type` are looked up among the two extra fields. */
  lemma ExtraQueryValues(p: PublicationParams)
    ensures Lookup(PublicationQuery(p), "lang") == LanguageParam(p.lang)
    ensures Lookup(PublicationQuery(p), "type") == TypeParam(p.pubType)
  {
    assert "lang" !in ListKeys && "type" !in ListKeys;
    PublicationLookup(p, "lang");
    ExtraQueryLookup(p, "lang");
    PublicationLookup(p, "type");
    ExtraQueryLookup(p, "type");
  }

  /** A key outside the seven has no value. */
  lemma OtherKeyAbsent(p: PublicationParams, k: string)
    requires k !in PublicationKeys
    ensures Lookup(PublicationQuery(p), k) == None
  {
    assert k !in ListKeys && k != "lang" && k != "type";
    PublicationLookup(p, k);
    ExtraQueryLookup(p, k);
  }

  /** The five list keys are looked up among the list fields. */
  lemma CommonQueryValues(p: PublicationParams)
    ensures Lookup(PublicationQuery(p), "page") == NumberParam(p.page)
    ensures Lookup(PublicationQuery(p), "limit") == NumberParam(p.limit)
    ensures Lookup(PublicationQuery(p), "search") == TextParam(p.search)
    ensures Lookup(PublicationQuery(p), "sortBy") == TextParam(p.sortBy)
    ensures Lookup(PublicationQuery(p), "sortOrder") == SortParam(p.sortOrder)
  {
    ListQueryValues(CommonParams(p));
    PublicationLookup(p, "page");
    PublicationLookup(p, "limit");
    PublicationLookup(p, "search");
    PublicationLookup(p, "sortBy");
    PublicationLookup(p, "sortOrder");
  }

  lemma ExtraQueryLookup(p: PublicationParams, k: string)
    ensures Lookup(Present(ExtraFields(p)), k) ==
      if k == "lang" then LanguageParam(p.lang) else if k == "type" then TypeParam(p.pubType) else None
  {
    var extra := ExtraFields(p);
    assert extra[1..][1..] == [];
    assert Lookup(extra[1..], k) == if k == "type" then Some(extra[1].1) else None;
    assert DistinctKeys(extra);
    PresentLookup(extra, k);
  }

  /** A publication query looks a common key up among the five list fields
      and any other key among lang and type. */
  lemma PublicationLookup(p: PublicationParams, k: string)
    ensures k in ListKeys ==> Lookup(PublicationQuery(p), k) == Lookup(ListQuery(CommonParams(p)), k)
    ensures k !in ListKeys ==> Lookup(PublicationQuery(p), k) == Lookup(Present(ExtraFields(p)), k)
  {
    var head, tail := ListQuery(CommonParams(p)), Present(ExtraFields(p));
    PresentConcat(ListFields(CommonParams(p)), ExtraFields(p));
    LookupConcat(head, tail, k);
    ListQueryValues(CommonParams(p));
    ExtraQueryLookup(p, k);
  }

  /** The keys come in the order page, limit, search, sortBy, sortOrder,
      lang, type. */
  lemma PublicationQueryOrder(p: PublicationParams)
    ensures IsSubsequence(KeysOf(PublicationQuery(p)), PublicationKeys)
  {
    PublicationFieldsDistinct(p);
    PresentOrder(PublicationFields(p));
  }

  // ---------------------------------------------------------------------
  // Multipart payload

  /** `string | Date`. */
  datatype DateInput = DateText(s: string) | DateObject(time: int)

  /** `if (payload.date)`: a Date object is always truthy. */
  predicate DateTruthy(d: Option<DateInput>) {
    d.Some? && (d.value.DateText? ==> d.value.s != "")
  }

  /** `new Date(d).toISOString()`, not modelled: a parameter of the model.
      None stands for the RangeError it throws on an invalid date. */
  type IsoFormatter = DateInput -> Option<string>

  /** The `image` field: `isFile` is the result of `instanceof File`. */
  datatype Upload = Upload(name: string, isFile: bool)

  /** `PublicationCreatePayload | PublicationUpdatePayload`. A None field is
      `undefined` or `null`; `categoryIds` is None when it is not an array. */
  datatype PublicationPayload = PublicationPayload(
    title: Option<string>,
    content: Option<string>,
    date: Option<DateInput>,
    categoryIds: Option<seq<string>>,
    pubType: Option<PublicationType>,
    image: Option<Upload>)

  /** What `appendIfDefined(k, v)` appends. */
  function IfDefined(k: string, v: Option<string>): seq<FormEntry> {
    if v.Some? then [(k, Text(v.value))] else []
  }

  function CategoryEntries(ids: seq<string>): (es: seq<FormEntry>)
    ensures |es| == |ids|
  {
    seq(|ids|, i requires 0 <= i < |ids| => ("category_ids[]", Text(ids[i])))
  }

  function Texts(ids: seq<string>): seq<FormValue> {
    seq(|ids|, i requires 0 <= i < |ids| => Text(ids[i]))
  }

  /** True when formatting the date throws. */
  predicate DateThrows(p: PublicationPayload, iso: IsoFormatter) {
    DateTruthy(p.date) && iso(p.date.value).None?
  }

  function TitleBlock(p: PublicationPayload): seq<FormEntry> { IfDefined("title", p.title) }

  function ContentBlock(p: PublicationPayload): seq<FormEntry> { IfDefined("content", p.content) }

  function DateBlock(p: PublicationPayload, iso: IsoFormatter): seq<FormEntry> {
    if DateTruthy(p.date) && iso(p.date.value).Some? then [("date", Text(iso(p.date.value).value))] else []
  }

  function CategoryBlock(p: PublicationPayload): seq<FormEntry> {
    if p.categoryIds.Some? then CategoryEntries(p.categoryIds.value) else []
  }

  function TypeBlock(p: PublicationPayload): seq<FormEntry> {
    IfDefined("type", if p.pubType.Some? then Some(TypeText(p.pubType.value)) else None)
  }

  function ImageBlock(p: PublicationPayload): seq<FormEntry> {
    if p.image.Some? && p.image.value.isFile then [("image", FileBlob(p.image.value.name))] else []
  }

  /** The entries of the `FormData` that `toPublicationFormData` returns, or
      None when it throws. */
  function FormEntries(p: PublicationPayload, iso: IsoFormatter): (r: Option<seq<FormEntry>>)
    ensures r.None? <==> DateTruthy(p.date) && iso(p.date.value).None?
    ensures r.Some? ==> forall i :: 0 <= i < |r.value| ==> r.value[i].0 in FormKeys
  {
    BlocksUniform(p, iso);
    if DateThrows(p, iso) then None
    else Some(TitleBlock(p) + ContentBlock(p) + DateBlock(p, iso) + CategoryBlock(p) + TypeBlock(p) + ImageBlock(p))
  }

  /** `appendIfDefined`: skips only null and undefined. */
  method AppendIfDefined(formData: FormData, key: string, value: Option<string>)
    modifies formData
    ensures formData.entries == old(formData.entries) + IfDefined(key, value)
  {
    if value.Some? {
      formData.Append(key, Text(value.value));
    }
  }

  /** `toPublicationFormData`. When formatting the date throws, `threw` is
      set and the partly filled form is abandoned. */
  method ToPublicationFormData(payload: PublicationPayload, iso: IsoFormatter) returns (formData: FormData, threw: bool)
    ensures fresh(formData)
    ensures threw <==> FormEntries(payload, iso).None?
    ensures !threw ==> formData.entries == FormEntries(payload, iso).value
  {
    formData := new FormData();
    threw := false;
    AppendIfDefined(formData, "title", payload.title);
    AppendIfDefined(formData, "content", payload.content);
    assert formData.entries == TitleBlock(payload) + ContentBlock(payload);
    if DateTruthy(payload.date) {
      var normalizedDate := iso(payload.date.value);
      if normalizedDate.None? {
        threw := true;
        return;
      }
      AppendIfDefined(formData, "date", normalizedDate);
    }
    assert formData.entries == TitleBlock(payload) + ContentBlock(payload) + DateBlock(payload, iso);
    if payload.categoryIds.Some? {
      var ids := payload.categoryIds.value;
      ghost var before := formData.entries;
      var i := 0;
      while i < |ids|
        invariant 0 <= i <= |ids|
        invariant formData.entries == before + CategoryEntries(ids[..i])
      {
        formData.Append("category_ids[]", Text(ids[i]));
        assert CategoryEntries(ids[..i + 1]) == CategoryEntries(ids[..i]) + [("category_ids[]", Text(ids[i]))];
        i := i + 1;
      }
      assert ids[..|ids|] == ids;
    }
    ghost var upToCategories := formData.entries;
    assert upToCategories == TitleBlock(payload) + ContentBlock(payload) + DateBlock(payload, iso) + CategoryBlock(payload);
    AppendIfDefined(formData, "type", if payload.pubType.Some? then Some(TypeText(payload.pubType.value)) else None);
    if payload.image.Some? && payload.image.value.isFile {
      formData.Append("image", FileBlob(payload.image.value.name));
    }
    assert formData.entries == upToCategories + TypeBlock(payload) + ImageBlock(payload);
  }

  // ---------------------------------------------------------------------
  // Properties of the payload

  predicate Uniform(es: seq<FormEntry>, key: string) {
    forall i :: 0 <= i < |es| ==> es[i].0 == key
  }

  function Values(es: seq<FormEntry>): seq<FormValue> {
    seq(|es|, i requires 0 <= i < |es| => es[i].1)
  }

  lemma {:induction false} ValuesOfUniform(es: seq<FormEntry>, key: string, k: string)
    requires Uniform(es, key)
    ensures ValuesOf(es, k) == if k == key then Values(es) else []
  {
    if es != [] {
      ValuesOfUniform(es[1..], key, k);
      assert Values(es) == [es[0].1] + Values(es[1..]);
    }
  }

  /** The values the form holds under `k`, as the concatenation of what
      each step of the builder contributed under `k`. */
  lemma FormValuesOf(p: PublicationPayload, iso: IsoFormatter, k: string)
    requires !DateThrows(p, iso)
    ensures ValuesOf(FormEntries(p, iso).value, k) ==
      ValuesOf(TitleBlock(p), k) + ValuesOf(ContentBlock(p), k) + ValuesOf(DateBlock(p, iso), k)
      + ValuesOf(CategoryBlock(p), k) + ValuesOf(TypeBlock(p), k) + ValuesOf(ImageBlock(p), k)
  {
    var t, c, d, g, y, m := TitleBlock(p), ContentBlock(p), DateBlock(p, iso), CategoryBlock(p), TypeBlock(p), ImageBlock(p);
    ValuesOfConcat(t, c, k);
    ValuesOfConcat(t + c, d, k);
    ValuesOfConcat(t + c + d, g, k);
    ValuesOfConcat(t + c + d + g, y, k);
    ValuesOfConcat(t + c + d + g + y, m, k);
  }

  lemma BlocksUniform(p: PublicationPayload, iso: IsoFormatter)
    ensures Uniform(TitleBlock(p), "title") && Uniform(ContentBlock(p), "content")
    ensures Uniform(DateBlock(p, iso), "date") && Uniform(CategoryBlock(p), "category_ids[]")
    ensures Uniform(TypeBlock(p), "type") && Uniform(ImageBlock(p), "image")
    ensures Values(CategoryBlock(p)) == if p.categoryIds.Some? then Texts(p.categoryIds.value) else []
  {
  }

  lemma FormValuesByKey(p: PublicationPayload, iso: IsoFormatter, k: string)
    requires !DateThrows(p, iso)
    ensures ValuesOf(FormEntries(p, iso).value, k) ==
      (if k == "title" then Values(TitleBlock(p)) else [])
      + (if k == "content" then Values(ContentBlock(p)) else [])
      + (if k == "date" then Values(DateBlock(p, iso)) else [])
      + (if k == "category_ids[]" then Values(CategoryBlock(p)) else [])
      + (if k == "type" then Values(TypeBlock(p)) else [])
      + (if k == "image" then Values(ImageBlock(p)) else [])
  {
    BlocksUniform(p, iso);
    FormValuesOf(p, iso, k);
    ValuesOfUniform(TitleBlock(p), "title", k);
    ValuesOfUniform(ContentBlock(p), "content", k);
    ValuesOfUniform(DateBlock(p, iso), "date", k);
    ValuesOfUniform(CategoryBlock(p), "category_ids[]", k);
    ValuesOfUniform(TypeBlock(p), "type", k);
    ValuesOfUniform(ImageBlock(p), "image", k);
  }

  /** What the form holds under each name: `title`, `content` and `type`
      whenever defined (an empty string included); `date` once, as the ISO
      text, only when truthy; one `category_ids[]` per id, in input order;
      `image` only for a File; nothing under any other name. */
  lemma FormFields(p: PublicationPayload, iso: IsoFormatter)
    requires !DateThrows(p, iso)
    ensures ValuesOf(FormEntries(p, iso).value, "title") ==
      (if p.title.Some? then [Text(p.title.value)] else [])
    ensures ValuesOf(FormEntries(p, iso).value, "content") ==
      (if p.content.Some? then [Text(p.content.value)] else [])
    ensures ValuesOf(FormEntries(p, iso).value, "date") ==
      (if DateTruthy(p.date) then [Text(iso(p.date.value).value)] else [])
    ensures ValuesOf(FormEntries(p, iso).value, "category_ids[]") ==
      (if p.categoryIds.Some? then Texts(p.categoryIds.value) else [])
    ensures ValuesOf(FormEntries(p, iso).value, "type") ==
      (if p.pubType.Some? then [Text(TypeText(p.pubType.value))] else [])
    ensures ValuesOf(FormEntries(p, iso).value, "image") ==
      (if p.image.Some? && p.image.value.isFile then [FileBlob(p.image.value.name)] else [])
    ensures forall k :: k !in FormKeys ==> ValuesOf(FormEntries(p, iso).value, k) == []
  {
    TitleField(p, iso);
    ContentField(p, iso);
    DateField(p, iso);
    CategoryField(p, iso);
    TypeField(p, iso);
    ImageField(p, iso);
    NoOtherField(p, iso);
  }

  lemma TitleField(p: PublicationPayload, iso: IsoFormatter)
    requires !DateThrows(p, iso)
    ensures ValuesOf(FormEntries(p, iso).value, "title") ==
      (if p.title.Some? then [Text(p.title.value)] else [])
  {
    FormValuesByKey(p, iso, "title");
  }

  lemma ContentField(p: PublicationPayload, iso: IsoFormatter)
    requires !DateThrows(p, iso)
    ensures ValuesOf(FormEntries(p, iso).value, "content") ==
      (if p.content.Some? then [Text(p.content.value)] else [])
  {
    FormValuesByKey(p, iso, "content");
  }

  lemma DateField(p: PublicationPayload, iso: IsoFormatter)
    requires !DateThrows(p, iso)
    ensures ValuesOf(FormEntries(p, iso).value, "date") ==
      (if DateTruthy(p.date) then [Text(iso(p.date.value).value)] else [])
  {
    FormValuesByKey(p, iso, "date");
  }

  lemma CategoryField(p: PublicationPayload, iso: IsoFormatter)
    requires !DateThrows(p, iso)
    ensures ValuesOf(FormEntries(p, iso).value, "category_ids[]") ==
      (if p.categoryIds.Some? then Texts(p.categoryIds.value) else [])
  {
    BlocksUniform(p, iso);
    FormValuesByKey(p, iso, "category_ids[]");
  }

  lemma TypeField(p: PublicationPayload, iso: IsoFormatter)
    requires !DateThrows(p, iso)
    ensures ValuesOf(FormEntries(p, iso).value, "type") ==
      (if p.pubType.Some? then [Text(TypeText(p.pubType.value))] else [])
  {
    FormValuesByKey(p, iso, "type");
  }

  lemma ImageField(p: PublicationPayload, iso: IsoFormatter)
    requires !DateThrows(p, iso)
    ensures ValuesOf(FormEntries(p, iso).value, "image") ==
      (if p.image.Some? && p.image.value.isFile then [FileBlob(p.image.value.name)] else [])
  {
    FormValuesByKey(p, iso, "image");
  }

  lemma NoOtherField(p: PublicationPayload, iso: IsoFormatter)
    requires !DateThrows(p, iso)
    ensures forall k :: k !in FormKeys ==> ValuesOf(FormEntries(p, iso).value, k) == []
  {
    forall k | k !in FormKeys ensures ValuesOf(FormEntries(p, iso).value, k) == [] {
      FormValuesByKey(p, iso, k);
    }
  }

  const FormKeys: seq<string> := ["title", "content", "date", "category_ids[]", "type", "image"]

  /** The position of a form field in the builder's order. */
  function Rank(k: string): nat {
    if k == "title" then 0
    else if k == "content" then 1
    else if k == "date" then 2
    else if k == "category_ids[]" then 3
    else if k == "type" then 4
    else 5
  }

  predicate InFieldOrder(es: seq<FormEntry>) {
    forall i, j :: 0 <= i < j < |es| ==> Rank(es[i].0) <= Rank(es[j].0)
  }

  predicate RanksAtMost(es: seq<FormEntry>, m: nat) {
    forall i :: 0 <= i < |es| ==> Rank(es[i].0) <= m
  }

  lemma ExtendOrder(pre: seq<FormEntry>, block: seq<FormEntry>, key: string)
    requires InFieldOrder(pre) && RanksAtMost(pre, Rank(key)) && Uniform(block, key)
    ensures InFieldOrder(pre + block) && RanksAtMost(pre + block, Rank(key))
  {
    var es := pre + block;
    forall i, j | 0 <= i < j < |es| ensures Rank(es[i].0) <= Rank(es[j].0) {
      if j < |pre| {
        assert es[i] == pre[i] && es[j] == pre[j];
      } else if i < |pre| {
        assert es[i] == pre[i] && es[j] == block[j - |pre|];
      } else {
        assert es[i] == block[i - |pre|] && es[j] == block[j - |pre|];
      }
    }
  }

  /** The entries come in the order title, content, date, category_ids[]...,
      type, image. */
  lemma FormOrder(p: PublicationPayload, iso: IsoFormatter)
    requires !DateThrows(p, iso)
    ensures InFieldOrder(FormEntries(p, iso).value)
  {
    BlocksUniform(p, iso);
    var t, c, d, g, y, m := TitleBlock(p), ContentBlock(p), DateBlock(p, iso), CategoryBlock(p), TypeBlock(p), ImageBlock(p);
    assert [] + t == t;
    ExtendOrder([], t, "title");
    ExtendOrder(t, c, "content");
    ExtendOrder(t + c, d, "date");
    ExtendOrder(t + c + d, g, "category_ids[]");
    ExtendOrder(t + c + d + g, y, "type");
    ExtendOrder(t + c + d + g + y, m, "image");
  }

  /** The builder throws exactly when the date is truthy and cannot be
      formatted; a falsy date (absent or empty text) is simply left out. */
  lemma FormThrowsOnlyOnBadDate(p: PublicationPayload, iso: IsoFormatter)
    ensures FormEntries(p, iso).None? <==> DateTruthy(p.date) && iso(p.date.value).None?
    ensures !DateTruthy(p.date) ==> FormEntries(p, iso).Some?
  {
  }

  // ---------------------------------------------------------------------
  // Requests and service functions

  datatype Operation = List | ById | Create | Update | Delete

  function DefaultMessage(op: Operation): string {
    match op
    case List => "Gagal mengambil data publikasi"
    case ById => "Gagal mengambil detail publikasi"
    case Create => "Gagal membuat publikasi"
    case Update => "Gagal memperbarui publikasi"
    case Delete => "Gagal menghapus publikasi"
  }

  function DefaultCode(op: Operation): string {
    match op
    case List => "GET_PUBLICATIONS_ERROR"
    case ById => "GET_PUBLICATION_BY_ID_ERROR"
    case Create => "CREATE_PUBLICATION_ERROR"
    case Update => "UPDATE_PUBLICATION_ERROR"
    case Delete => "DELETE_PUBLICATION_ERROR"
  }

  function ListRequest(p: PublicationParams): Request {
    Request(GET, "/admin/publications?" + Serialize(PublicationQuery(p)), NoBody)
  }

  function ByIdRequest(id: string): Request {
    Request(GET, "/admin/publications/" + id, NoBody)
  }

  /** None when building the form throws, so that nothing is sent. */
  function CreateRequest(payload: PublicationPayload, iso: IsoFormatter): Option<Request> {
    var form := FormEntries(payload, iso);
    if form.None? then None else Some(Request(POST, "/admin/publications", Multipart(form.value)))
  }

  function UpdateRequest(id: string, payload: PublicationPayload, iso: IsoFormatter): Option<Request> {
    var form := FormEntries(payload, iso);
    if form.None? then None else Some(Request(PUT, "/admin/publications/" + id, Multipart(form.value)))
  }

  function DeleteRequest(id: string): Request {
    Request(DELETE, "/admin/publications/" + id, NoBody)
  }

  /** The operations that return `response.data.data`. */
  predicate ReadsInner(op: Operation) {
    op == ById || op == Create || op == Update
  }

  /** The `try`/`catch` of every service function; a `null` or `undefined`
      body makes the inner read of `ReadsInner` operations throw a
      TypeError, which has no `response`. */
  function Settle(op: Operation, o: Outcome): (r: ServiceResult)
    ensures r.Success? <==> o.Resolved? && !(ReadsInner(op) && Nullish(o.data))
    ensures r.Success? ==> r.data == o.data
    ensures r.Failure? ==> r.error.code == FailureCode(o, DefaultCode(op))
  {
    match o
    case Resolved(body) =>
      if ReadsInner(op) && Nullish(body) then
        Failure(NormalizeError(WithoutResponse, DefaultMessage(op), DefaultCode(op)))
      else
        Success(body)
    case Rejected(e) => Failure(NormalizeError(e, DefaultMessage(op), DefaultCode(op)))
  }

  /** Sends a request that could be built; an exception while building it
      (the date's RangeError, an object without `response`) is caught by
      the same `catch`. */
  function Dispatch(op: Operation, request: Option<Request>, send: Transport): (r: ServiceResult)
    ensures request.None? ==>
      r == Failure(ApiError(Str(DefaultMessage(op)), Str(DefaultCode(op)), Some(Undefined)))
    ensures request.Some? ==>
      (r.Success? <==> send(request.value).Resolved? && !(ReadsInner(op) && Nullish(send(request.value).data)))
  {
    if request.None? then Settle(op, Rejected(WithoutResponse)) else Settle(op, send(request.value))
  }

  /** The query-building part of `getPublications`: the five list steps,
      then `lang` and `type`. */
  method BuildPublicationQuery(params: PublicationParams) returns (searchParams: SearchParams)
    ensures fresh(searchParams)
    ensures searchParams.pairs == PublicationQuery(params)
  {
    ghost var fs := PublicationFields(params);
    PublicationFieldsDistinct(params);
    searchParams := new SearchParams();
    SetListFields(searchParams, CommonParams(params));
    assert fs[..5] == ListFields(CommonParams(params));
    SetField(searchParams, fs, 5, "lang", LanguageParam(params.lang));
    SetField(searchParams, fs, 6, "type", TypeParam(params.pubType));
    assert fs[..7] == fs;
  }

  /** `getPublications`: builds the query step by step, then sends it. */
  method GetPublications(params: PublicationParams, send: Transport) returns (r: ServiceResult)
    ensures r == Settle(List, send(ListRequest(params)))
  {
    var searchParams := BuildPublicationQuery(params);
    var request := Request(GET, "/admin/publications?" + searchParams.ToString(), NoBody);
    assert request == ListRequest(params);
    r := Settle(List, send(request));
  }

  /** `getPublicationById`: `GET /admin/publications/{id}`; the read of
      `response.data.data` fails on a `null` or `undefined` body. */
  function GetPublicationById(id: string, send: Transport): (r: ServiceResult)
    ensures var o := send(Request(GET, "/admin/publications/" + id, NoBody));
      (r.Success? <==> o.Resolved? && !Nullish(o.data)) && (r.Success? ==> r.data == o.data)
      && (r.Failure? ==> r.error.code == FailureCode(o, "GET_PUBLICATION_BY_ID_ERROR"))
  {
    Settle(ById, send(ByIdRequest(id)))
  }

  /** `createPublication`. */
  method CreatePublication(payload: PublicationPayload, iso: IsoFormatter, send: Transport) returns (r: ServiceResult)
    ensures r == Dispatch(Create, CreateRequest(payload, iso), send)
  {
    var formData, threw := ToPublicationFormData(payload, iso);
    if threw {
      r := Settle(Create, Rejected(WithoutResponse));
    } else {
      r := Settle(Create, send(Request(POST, "/admin/publications", Multipart(formData.entries))));
    }
  }

  /** `updatePublication`. */
  method UpdatePublication(id: string, payload: PublicationPayload, iso: IsoFormatter, send: Transport)
    returns (r: ServiceResult)
    ensures r == Dispatch(Update, UpdateRequest(id, payload, iso), send)
  {
    var formData, threw := ToPublicationFormData(payload, iso);
    if threw {
      r := Settle(Update, Rejected(WithoutResponse));
    } else {
      r := Settle(Update, send(Request(PUT, "/admin/publications/" + id, Multipart(formData.entries))));
    }
  }

  /** `deletePublication`: `DELETE /admin/publications/{id}`; it reads no
      body. */
  function DeletePublication(id: string, send: Transport): (r: ServiceResult)
    ensures var o := send(Request(DELETE, "/admin/publications/" + id, NoBody));
      (r.Success? <==> o.Resolved?)
      && (r.Failure? ==> r.error.code == FailureCode(o, "DELETE_PUBLICATION_ERROR"))
  {
    Settle(Delete, send(DeleteRequest(id)))
  }

  // ---------------------------------------------------------------------
  // Properties of the service functions

  lemma DefaultCodesDistinct(a: Operation, b: Operation)
    requires DefaultCode(a) == DefaultCode(b)
    ensures a == b
  {
  }

  /** A sent call succeeds exactly when the transport resolved it and, for
      by-id, create and update, the body is neither `null` nor `undefined`;
      such a body fails with exactly the operation's defaults. */
  lemma SettleOutcome(op: Operation, o: Outcome)
    ensures Settle(op, o).Success? <==> o.Resolved? && !(ReadsInner(op) && Nullish(o.data))
    ensures Settle(op, o).Success? ==> Settle(op, o).data == o.data
    ensures o.Resolved? && ReadsInner(op) && Nullish(o.data) ==>
      Settle(op, o) == Failure(ApiError(Str(DefaultMessage(op)), Str(DefaultCode(op)), Some(Undefined)))
  {
  }

  /** With the default `{}` the query is empty and the list path is the
      bare `/admin/publications?`. */
  lemma DefaultParamsBarePath()
    ensures PublicationQuery(NoPublicationParams) == []
    ensures ListRequest(NoPublicationParams).path == "/admin/publications?"
  {
    ListPathBare(NoPublicationParams);
    PresentEmpty(PublicationFields(NoPublicationParams));
  }

  /** A date that cannot be formatted fails the create or update before
      anything is sent, whatever the transport would answer, with exactly
      the operation's defaults. */
  lemma BadDateNeverSent(id: string, payload: PublicationPayload, iso: IsoFormatter, send: Transport)
    requires DateThrows(payload, iso)
    ensures Dispatch(Create, CreateRequest(payload, iso), send) ==
      Failure(ApiError(Str(DefaultMessage(Create)), Str(DefaultCode(Create)), Some(Undefined)))
    ensures Dispatch(Update, UpdateRequest(id, payload, iso), send) ==
      Failure(ApiError(Str(DefaultMessage(Update)), Str(DefaultCode(Update)), Some(Undefined)))
  {
  }

  /** A buildable create or update sends the form the builder produced, as
      a multipart body, to the collection or the item path. */
  lemma WritesCarryTheForm(id: string, payload: PublicationPayload, iso: IsoFormatter)
    requires !DateThrows(payload, iso)
    ensures CreateRequest(payload, iso).Some? && UpdateRequest(id, payload, iso).Some?
    ensures CreateRequest(payload, iso).value.body == Multipart(FormEntries(payload, iso).value)
    ensures UpdateRequest(id, payload, iso).value.body == Multipart(FormEntries(payload, iso).value)
    ensures UpdateRequest(id, payload, iso).value.path == ByIdRequest(id).path == DeleteRequest(id).path
  {
  }

  /** The list path is the bare `/admin/publications?` exactly when no field
      of the params is truthy. */
  lemma ListPathBare(p: PublicationParams)
    ensures ListRequest(p).path == "/admin/publications?" <==>
      !NumberTruthy(p.page) && !NumberTruthy(p.limit) && !StringTruthy(p.search)
      && !StringTruthy(p.sortBy) && p.sortOrder.None? && p.lang.None? && p.pubType.None?
  {
    var fs := PublicationFields(p);
    PresentEmpty(fs);
    assert |fs| == 7;
    assert (forall i :: 0 <= i < |fs| ==> fs[i].1.None?) <==>
      fs[0].1.None? && fs[1].1.None? && fs[2].1.None? && fs[3].1.None? && fs[4].1.None?
      && fs[5].1.None? && fs[6].1.None?;
    var q := Serialize(PublicationQuery(p));
    assert ListRequest(p).path == "/admin/publications?" + q;
    if q != "" {
      assert |ListRequest(p).path| > |"/admin/publications?"|;
    }
  }
}
