/**
 * Request building of the merchant service (src/services/merchant.service.ts):
 * list filters become query parameters, and merchant fields become multipart
 * form entries.
 */
module MerchantService {
  import opened Wrappers
  import opened JsValues
  import opened Types
  import opened Api

  // ---------------------------------------------------------------------------
  // Query parameters of `getAll`
  // ---------------------------------------------------------------------------

  /** The query keys `getAll` may send; `Name` gives the text of each. */
  datatype QueryKey = PageKey | LimitKey | SearchKey | IsActiveKey | CityKey {
    function Name(): string {
      match this
      case PageKey => "page"
      case LimitKey => "limit"
      case SearchKey => "search"
      case IsActiveKey => "isActive"
      case CityKey => "city"
    }

    /** The position of the key in the query string. */
    function Rank(): nat {
      match this
      case PageKey => 0
      case LimitKey => 1
      case SearchKey => 2
      case IsActiveKey => 3
      case CityKey => 4
    }
  }

  /** One `URLSearchParams.append(key, value)`; percent-encoding is not modelled. */
  datatype Param = Param(key: QueryKey, value: string)

  /** The value of the first parameter named `key`. */
  function Lookup(params: seq<Param>, key: QueryKey): Option<string> {
    if |params| == 0 then None
    else if params[0].key == key then Some(params[0].value)
    else Lookup(params[1..], key)
  }

  /**
   * What one filter contributes to the query: page, limit, search and city
   * only when truthy (0 and "" are dropped), isActive whenever it is given.
   */
  function Segment(f: MerchantFilters, key: QueryKey): seq<Param> {
    match key
    case PageKey => if TruthyNumber(f.page) then [Param(PageKey, IntToString(f.page.value))] else []
    case LimitKey => if TruthyNumber(f.limit) then [Param(LimitKey, IntToString(f.limit.value))] else []
    case SearchKey => if TruthyString(f.search) then [Param(SearchKey, f.search.value)] else []
    case IsActiveKey => if f.isActive.Some? then [Param(IsActiveKey, BoolToString(f.isActive.value))] else []
    case CityKey => if TruthyString(f.city) then [Param(CityKey, f.city.value)] else []
  }

  /** The query that `getAll` sends: the filters' segments in the order page, limit, search, isActive, city. */
  function QueryParams(f: MerchantFilters): seq<Param> {
    Segment(f, PageKey) + (Segment(f, LimitKey) + (Segment(f, SearchKey) + (Segment(f, IsActiveKey) + Segment(f, CityKey))))
  }

  lemma Regroup<T>(a: seq<T>, b: seq<T>, c: seq<T>)
    ensures a + b + c == a + (b + c)
  {
  }

  /** Looking a key up in two runs of parameters looks in the first run first. */
  lemma {:induction false} LookupAppend(a: seq<Param>, b: seq<Param>, key: QueryKey)
    ensures Lookup(a + b, key) == if Lookup(a, key).Some? then Lookup(a, key) else Lookup(b, key)
    decreases |a|
  {
    if |a| == 0 {
      assert a + b == b;
    } else {
      assert (a + b)[1..] == a[1..] + b;
      LookupAppend(a[1..], b, key);
    }
  }

  lemma LookupSingleton(p: Param, key: QueryKey)
    ensures Lookup([p], key) == if p.key == key then Some(p.value) else None
  {
    assert [p][1..] == [];
  }

  /** Each parameter of the query holds its filter's string form, exactly when that filter is truthy (isActive: given). */
  lemma QueryLookup(f: MerchantFilters)
    ensures Lookup(QueryParams(f), PageKey) == if TruthyNumber(f.page) then Some(IntToString(f.page.value)) else None
    ensures Lookup(QueryParams(f), LimitKey) == if TruthyNumber(f.limit) then Some(IntToString(f.limit.value)) else None
    ensures Lookup(QueryParams(f), SearchKey) == if TruthyString(f.search) then f.search else None
    ensures Lookup(QueryParams(f), IsActiveKey) == if f.isActive.Some? then Some(BoolToString(f.isActive.value)) else None
    ensures Lookup(QueryParams(f), CityKey) == if TruthyString(f.city) then f.city else None
  {
    var p, l, s, a, c := Segment(f, PageKey), Segment(f, LimitKey), Segment(f, SearchKey), Segment(f, IsActiveKey), Segment(f, CityKey);
    forall key: QueryKey
      ensures Lookup(QueryParams(f), key) ==
        match key
        case PageKey => if TruthyNumber(f.page) then Some(IntToString(f.page.value)) else None
        case LimitKey => if TruthyNumber(f.limit) then Some(IntToString(f.limit.value)) else None
        case SearchKey => if TruthyString(f.search) then f.search else None
        case IsActiveKey => if f.isActive.Some? then Some(BoolToString(f.isActive.value)) else None
        case CityKey => if TruthyString(f.city) then f.city else None
    {
      if p != [] { LookupSingleton(p[0], key); }
      if l != [] { LookupSingleton(l[0], key); }
      if s != [] { LookupSingleton(s[0], key); }
      if a != [] { LookupSingleton(a[0], key); }
      if c != [] { LookupSingleton(c[0], key); }
      LookupAppend(a, c, key);
      LookupAppend(s, a + c, key);
      LookupAppend(l, s + (a + c), key);
      LookupAppend(p, l + (s + (a + c)), key);
    }
  }

  ghost predicate Ascending(r: seq<Param>) {
    forall i, j :: 0 <= i < j < |r| ==> r[i].key.Rank() < r[j].key.Rank()
  }

  ghost predicate RanksFrom(r: seq<Param>, k: nat) {
    forall i :: 0 <= i < |r| ==> k <= r[i].key.Rank()
  }

  /** Putting at most one parameter of rank `k` before ascending parameters of higher rank keeps them ascending. */
  lemma AscendingPrepend(x: seq<Param>, t: seq<Param>, k: nat)
    requires |x| <= 1 && (|x| == 1 ==> x[0].key.Rank() == k)
    requires Ascending(t) && RanksFrom(t, k + 1)
    ensures Ascending(x + t) && RanksFrom(x + t, k)
  {
    if |x| == 1 {
      forall i, j | 0 <= i < j < |x + t| ensures (x + t)[i].key.Rank() < (x + t)[j].key.Rank() {
        assert (x + t)[j] == t[j - 1];
        if i > 0 { assert (x + t)[i] == t[i - 1]; }
      }
      forall i | 0 <= i < |x + t| ensures k <= (x + t)[i].key.Rank() {
        if i > 0 { assert (x + t)[i] == t[i - 1]; }
      }
    } else {
      assert x + t == t;
    }
  }

  /** Five optional parameters of ranks 0 to 4, in that order, are ascending. */
  lemma AscendingSegments(p: seq<Param>, l: seq<Param>, s: seq<Param>, a: seq<Param>, c: seq<Param>)
    requires |p| <= 1 && (|p| == 1 ==> p[0].key.Rank() == 0)
    requires |l| <= 1 && (|l| == 1 ==> l[0].key.Rank() == 1)
    requires |s| <= 1 && (|s| == 1 ==> s[0].key.Rank() == 2)
    requires |a| <= 1 && (|a| == 1 ==> a[0].key.Rank() == 3)
    requires |c| <= 1 && (|c| == 1 ==> c[0].key.Rank() == 4)
    ensures Ascending(p + (l + (s + (a + c))))
  {
    var t4 := c;
    AscendingPrepend(c, [], 4);
    assert c + [] == t4;
    var t3 := a + t4;
    AscendingPrepend(a, t4, 3);
    var t2 := s + t3;
    AscendingPrepend(s, t3, 2);
    var t1 := l + t2;
    AscendingPrepend(l, t2, 1);
    AscendingPrepend(p, t1, 0);
  }

  /** The parameters always come in the order page, limit, search, isActive, city. */
  lemma QueryOrder(f: MerchantFilters)
    ensures Ascending(QueryParams(f))
  {
    var p, l, s, a, c := Segment(f, PageKey), Segment(f, LimitKey), Segment(f, SearchKey), Segment(f, IsActiveKey), Segment(f, CityKey);
    AscendingSegments(p, l, s, a, c);
  }

  /** `getAll`'s parameter building, one append after another. */
  method AppendQueryParams(f: MerchantFilters) returns (params: seq<Param>)
    ensures params == QueryParams(f)
  {
    params := [];
    if TruthyNumber(f.page) { params := params + [Param(PageKey, IntToString(f.page.value))]; }
    assert params == Segment(f, PageKey);
    if TruthyNumber(f.limit) { params := params + [Param(LimitKey, IntToString(f.limit.value))]; }
    assert params == Segment(f, PageKey) + Segment(f, LimitKey);
    if TruthyString(f.search) { params := params + [Param(SearchKey, f.search.value)]; }
    assert params == Segment(f, PageKey) + Segment(f, LimitKey) + Segment(f, SearchKey);
    if f.isActive.Some? { params := params + [Param(IsActiveKey, BoolToString(f.isActive.value))]; }
    assert params == Segment(f, PageKey) + Segment(f, LimitKey) + Segment(f, SearchKey) + Segment(f, IsActiveKey);
    if TruthyString(f.city) { params := params + [Param(CityKey, f.city.value)]; }
    assert params == Segment(f, PageKey) + Segment(f, LimitKey) + Segment(f, SearchKey) + Segment(f, IsActiveKey) + Segment(f, CityKey);
    Regroup(Segment(f, PageKey) + Segment(f, LimitKey) + Segment(f, SearchKey), Segment(f, IsActiveKey), Segment(f, CityKey));
    Regroup(Segment(f, PageKey) + Segment(f, LimitKey), Segment(f, SearchKey), Segment(f, IsActiveKey) + Segment(f, CityKey));
    Regroup(Segment(f, PageKey), Segment(f, LimitKey), Segment(f, SearchKey) + (Segment(f, IsActiveKey) + Segment(f, CityKey)));
  }

  /** The filters with every falsy field made absent: what the query can carry. */
  function Normalised(f: MerchantFilters): (g: MerchantFilters)
    ensures g.isActive == f.isActive
    ensures TruthyNumber(f.page) ==> g.page == f.page
    ensures TruthyString(f.search) ==> g.search == f.search
  {
    MerchantFilters(
      if TruthyNumber(f.page) then f.page else None,
      if TruthyNumber(f.limit) then f.limit else None,
      if TruthyString(f.search) then f.search else None,
      f.isActive,
      if TruthyString(f.city) then f.city else None)
  }

  /** How a server reads the filters back from a query string. */
  function DecodeFilters(params: seq<Param>): MerchantFilters {
    var page := Lookup(params, PageKey);
    var limit := Lookup(params, LimitKey);
    var active := Lookup(params, IsActiveKey);
    MerchantFilters(
      if page.Some? then ParseInt(page.value) else None,
      if limit.Some? then ParseInt(limit.value) else None,
      Lookup(params, SearchKey),
      if active.Some? then ParseBool(active.value) else None,
      Lookup(params, CityKey))
  }

  /** Reading the query back recovers every truthy filter, and `isActive` even when false. */
  lemma QueryRoundTrip(f: MerchantFilters)
    ensures DecodeFilters(QueryParams(f)) == Normalised(f)
  {
    QueryLookup(f);
    if f.page.Some? { IntRoundTrip(f.page.value); }
    if f.limit.Some? { IntRoundTrip(f.limit.value); }
  }

  /** Falsy filters make no difference to the query. */
  lemma QueryIgnoresFalsy(f: MerchantFilters)
    ensures QueryParams(Normalised(f)) == QueryParams(f)
    ensures Normalised(Normalised(f)) == Normalised(f)
  {
  }

  // ---------------------------------------------------------------------------
  // Multipart body of `create` and `update`
  // ---------------------------------------------------------------------------

  /** A value of a merchant form field, as `Object.entries` yields it. */
  datatype FieldValue = Undefined | Null | Text(s: string) | Number(n: int) | Flag(b: bool)

  predicate Defined(v: FieldValue) {
    !v.Undefined? && !v.Null?
  }

  /** `value.toString()`. */
  function Stringify(v: FieldValue): string
    requires Defined(v)
  {
    match v
    case Text(s) => s
    case Number(n) => IntToString(n)
    case Flag(b) => BoolToString(b)
  }

  /** The form entries for the defined fields, in entry order. */
  function FormFields(fields: seq<(string, FieldValue)>): (r: seq<FormEntry>)
    ensures |r| <= |fields|
    ensures forall e :: e in r ==> e.TextEntry?
  {
    if |fields| == 0 then []
    else
      var (key, value) := fields[0];
      (if Defined(value) then [TextEntry(key, Stringify(value))] else []) + FormFields(fields[1..])
  }

  /** The `logo` entry, present only when a logo is supplied. */
  function LogoEntry(logo: Option<File>): seq<FormEntry> {
    if logo.Some? then [FileEntry("logo", logo.value)] else []
  }

  /** One field of the body: its text entry when defined, then the rest. */
  lemma FormFieldsAt(fields: seq<(string, FieldValue)>, i: nat)
    requires i < |fields|
    ensures FormFields(fields[i..]) ==
      (if Defined(fields[i].1) then [TextEntry(fields[i].0, Stringify(fields[i].1))] else []) + FormFields(fields[i + 1..])
  {
    assert fields[i..][1..] == fields[i + 1..];
  }

  /** Text entries followed by the logo entry: the logo is last, and is the only file. */
  lemma LogoLast(texts: seq<FormEntry>, logo: Option<File>)
    requires forall e :: e in texts ==> e.TextEntry?
    ensures logo.Some? ==> |texts + LogoEntry(logo)| >= 1 && (texts + LogoEntry(logo))[|texts|] == FileEntry("logo", logo.value)
    ensures (exists i :: 0 <= i < |texts + LogoEntry(logo)| && (texts + LogoEntry(logo))[i].FileEntry?) <==> logo.Some?
  {
    var form := texts + LogoEntry(logo);
    if logo.None? {
      assert form == texts;
      forall i | 0 <= i < |form| ensures !form[i].FileEntry? {
        assert form[i] in texts;
      }
    } else {
      assert form[|texts|].FileEntry?;
    }
  }

  /** Builds the multipart body: each defined field as text, then the logo. */
  method BuildFormData(fields: seq<(string, FieldValue)>, logo: Option<File>) returns (form: seq<FormEntry>)
    ensures form == FormFields(fields) + LogoEntry(logo)
    ensures logo.Some? ==> |form| >= 1 && form[|form| - 1] == FileEntry("logo", logo.value)
    ensures (exists i :: 0 <= i < |form| && form[i].FileEntry?) <==> logo.Some?
  {
    form := [];
    var i := 0;
    while i < |fields|
      invariant 0 <= i <= |fields|
      invariant form + FormFields(fields[i..]) == FormFields(fields)
    {
      FormFieldsAt(fields, i);
      var entry := if Defined(fields[i].1) then [TextEntry(fields[i].0, Stringify(fields[i].1))] else [];
      Regroup(form, entry, FormFields(fields[i + 1..]));
      form := form + entry;
      i := i + 1;
    }
    assert fields[i..] == [];
    assert form + [] == form;
    LogoLast(form, logo);
    form := form + LogoEntry(logo);
  }

  /** Serialising two runs of fields is serialising each, in order. */
  lemma {:induction false} FormFieldsAppend(a: seq<(string, FieldValue)>, b: seq<(string, FieldValue)>)
    ensures FormFields(a + b) == FormFields(a) + FormFields(b)
    decreases |a|
  {
    if |a| > 0 {
      assert (a + b)[1..] == a[1..] + b;
      FormFieldsAppend(a[1..], b);
    } else {
      assert a + b == b;
    }
  }

  /** A text entry is sent exactly for a field that is neither undefined nor null, with its string form. */
  lemma {:induction false} FormFieldsExactly(fields: seq<(string, FieldValue)>, key: string, text: string)
    ensures TextEntry(key, text) in FormFields(fields) <==>
      exists i :: 0 <= i < |fields| && fields[i].0 == key && Defined(fields[i].1) && Stringify(fields[i].1) == text
    decreases |fields|
  {
    if |fields| > 0 {
      FormFieldsExactly(fields[1..], key, text);
      assert forall i :: 1 <= i < |fields| ==> fields[i] == fields[1..][i - 1];
      if exists i :: 0 <= i < |fields[1..]| && fields[1..][i].0 == key && Defined(fields[1..][i].1) && Stringify(fields[1..][i].1) == text {
        var i :| 0 <= i < |fields[1..]| && fields[1..][i].0 == key && Defined(fields[1..][i].1) && Stringify(fields[1..][i].1) == text;
        assert fields[i + 1] == fields[1..][i];
      }
    }
  }

  /** Only the defined fields are counted. */
  function DefinedCount(fields: seq<(string, FieldValue)>): nat {
    if |fields| == 0 then 0 else (if Defined(fields[0].1) then 1 else 0) + DefinedCount(fields[1..])
  }

  lemma {:induction false} FormFieldsCount(fields: seq<(string, FieldValue)>)
    ensures |FormFields(fields)| == DefinedCount(fields)
    decreases |fields|
  {
    if |fields| > 0 { FormFieldsCount(fields[1..]); }
  }

  // ---------------------------------------------------------------------------
  // Requests
  // ---------------------------------------------------------------------------

  datatype Verb = GET | POST | PUT | PATCH | DELETE

  datatype Request = Request(verb: Verb, path: string, query: seq<Param>, body: Body)

  /** `getAll`: GET /merchants with the filter query. */
  method GetAllRequest(filters: MerchantFilters) returns (req: Request)
    ensures req.verb == GET && req.path == "/merchants" && req.body == NoBody
    ensures req.query == QueryParams(filters)
  {
    var params := AppendQueryParams(filters);
    req := Request(GET, "/merchants", params, NoBody);
  }

  /** `create`: POST /merchants with the multipart body. */
  method CreateRequest(fields: seq<(string, FieldValue)>, logo: Option<File>) returns (req: Request)
    ensures req.verb == POST && req.path == "/merchants" && req.query == []
    ensures req.body == FormBody(FormFields(fields) + LogoEntry(logo))
  {
    var form := BuildFormData(fields, logo);
    req := Request(POST, "/merchants", [], FormBody(form));
  }

  /** `update`: PUT /merchants/{id} with the same multipart body as `create`. */
  method UpdateRequest(id: string, fields: seq<(string, FieldValue)>, logo: Option<File>) returns (req: Request)
    ensures req.verb == PUT && req.path == "/merchants/" + id && req.query == []
    ensures req.body == FormBody(FormFields(fields) + LogoEntry(logo))
  {
    var form := BuildFormData(fields, logo);
    req := Request(PUT, "/merchants/" + id, [], FormBody(form));
  }

  /** `getById`: GET /merchants/{id}. */
  function GetByIdRequest(id: string): Request {
    Request(GET, "/merchants/" + id, [], NoBody)
  }

  /** `delete`: DELETE /merchants/{id}. */
  function DeleteRequest(id: string): Request {
    Request(DELETE, "/merchants/" + id, [], NoBody)
  }

  /** `toggleStatus`: PATCH /merchants/{id}/toggle-status. */
  function ToggleStatusRequest(id: string): Request {
    Request(PATCH, "/merchants/" + id + "/toggle-status", [], NoBody)
  }

  /** The list reply: `data.merchants` and `data.pagination`. */
  datatype ListReply = ListReply(merchants: seq<Merchant>, pagination: Pagination)

  /** `getAll`'s result: the reply's merchants and pagination, unchanged. */
  datatype PaginatedResponse = PaginatedResponse(data: seq<Merchant>, pagination: Pagination)

  function GetAllResult(reply: ListReply): (r: PaginatedResponse)
    ensures r.data == reply.merchants && r.pagination == reply.pagination
  {
    PaginatedResponse(reply.merchants, reply.pagination)
  }
}
