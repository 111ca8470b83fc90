/**
 * The merchants list page (src/pages/Merchantslist.tsx): the filters each
 * fetch asks for, the fallbacks of its columns, and its row actions.
 */
module MerchantsList {
  import opened Wrappers
  import opened JsValues
  import opened Types
  import opened Api
  import opened MerchantService
  import opened MerchantStore
  import CardsPage

  // ---------------------------------------------------------------------------
  // Filters
  // ---------------------------------------------------------------------------

  /** The first fetch: page 1 of 10. */
  const InitialFilters := MerchantFilters(Some(1), Some(10), None, None, None)

  /** `handleSearch`: back to page 1 at the current page size, with the search text and status. */
  function SearchFilters(limit: int, searchText: string, status: Option<bool>): (f: MerchantFilters)
    ensures f.page == Some(1) && f.limit == Some(limit) && f.city.None?
    ensures f.search == Some(searchText) && f.isActive == status
  {
    MerchantFilters(Some(1), Some(limit), Some(searchText), status, None)
  }

  /** `handleTableChange`: the table's page and page size, with the search text and status. */
  function TableChangeFilters(current: int, pageSize: int, searchText: string, status: Option<bool>): (f: MerchantFilters)
    ensures f.page == Some(current) && f.limit == Some(pageSize) && f.city.None?
    ensures f.search == Some(searchText) && f.isActive == status
  {
    MerchantFilters(Some(current), Some(pageSize), Some(searchText), status, None)
  }

  /** The first fetch sends `page=1&limit=10` and nothing else. */
  lemma InitialQuery()
    ensures QueryParams(InitialFilters) == [Param(PageKey, "1"), Param(LimitKey, "10")]
  {
    assert NatToString(10) == "10" by {
      assert NatToString(1) == "1";
      assert NatToString(0) == "0";
    }
  }

  /**
   * A search always asks for page 1; the search text is sent exactly when it
   * is non-empty, and the status exactly when one is chosen.
   */
  lemma SearchQuery(limit: int, searchText: string, status: Option<bool>)
    ensures Lookup(QueryParams(SearchFilters(limit, searchText, status)), PageKey) == Some("1")
    ensures Lookup(QueryParams(SearchFilters(limit, searchText, status)), SearchKey) ==
      if searchText == "" then None else Some(searchText)
    ensures Lookup(QueryParams(SearchFilters(limit, searchText, status)), IsActiveKey).Some? <==> status.Some?
    ensures Lookup(QueryParams(SearchFilters(limit, searchText, status)), CityKey).None?
  {
    QueryLookup(SearchFilters(limit, searchText, status));
    assert IntToString(1) == "1" by { assert NatToString(1) == "1"; }
  }

  /** Paging through the table keeps the search text and status of the query. */
  lemma TableChangeKeepsSearch(limit: int, current: int, pageSize: int, searchText: string, status: Option<bool>)
    ensures var q := QueryParams(TableChangeFilters(current, pageSize, searchText, status));
      var s := QueryParams(SearchFilters(limit, searchText, status));
      Lookup(q, SearchKey) == Lookup(s, SearchKey) && Lookup(q, IsActiveKey) == Lookup(s, IsActiveKey)
  {
    QueryLookup(TableChangeFilters(current, pageSize, searchText, status));
    QueryLookup(SearchFilters(limit, searchText, status));
  }

  /** The server reads a search back as page 1 of the same size with the same search and status. */
  lemma SearchRoundTrip(limit: int, searchText: string, status: Option<bool>)
    requires limit != 0 && searchText != ""
    ensures DecodeFilters(QueryParams(SearchFilters(limit, searchText, status))) == SearchFilters(limit, searchText, status)
  {
    QueryRoundTrip(SearchFilters(limit, searchText, status));
  }

  /** The page's first fetch: page 1 of 10. */
  method LoadFirstPage(store: MerchantStoreState, reply: Result<ListReply, ApiError>)
    returns (sent: Request)
    modifies store
    ensures sent.query == [Param(PageKey, "1"), Param(LimitKey, "10")]
    ensures reply.Ok? ==> store.View() == Listed(old(store.View()), reply.value, InitialFilters)
    ensures reply.Err? ==> store.View() == Failed(old(store.View()), reply.error, LoadError)
  {
    InitialQuery();
    var outcome;
    sent, outcome := store.FetchMerchants(Some(InitialFilters), reply);
  }

  /** `handleSearch`, at the page size the store holds. */
  method HandleSearch(store: MerchantStoreState, searchText: string, status: Option<bool>, reply: Result<ListReply, ApiError>)
    returns (sent: Request)
    modifies store
    ensures sent.query == QueryParams(SearchFilters(old(store.limit), searchText, status))
    ensures reply.Ok? ==> store.View() == Listed(old(store.View()), reply.value, SearchFilters(old(store.limit), searchText, status))
    ensures reply.Err? ==> store.View() == Failed(old(store.View()), reply.error, LoadError)
  {
    var outcome;
    sent, outcome := store.FetchMerchants(Some(SearchFilters(store.limit, searchText, status)), reply);
  }

  /** `handleTableChange`. */
  method HandleTableChange(store: MerchantStoreState, current: int, pageSize: int, searchText: string,
                           status: Option<bool>, reply: Result<ListReply, ApiError>)
    returns (sent: Request)
    modifies store
    ensures sent.query == QueryParams(TableChangeFilters(current, pageSize, searchText, status))
    ensures reply.Ok? ==> store.View() == Listed(old(store.View()), reply.value, TableChangeFilters(current, pageSize, searchText, status))
    ensures reply.Err? ==> store.View() == Failed(old(store.View()), reply.error, LoadError)
  {
    var outcome;
    sent, outcome := store.FetchMerchants(Some(TableChangeFilters(current, pageSize, searchText, status)), reply);
  }

  /** `handleDelete`: the store removes the merchant; the page reports the result. */
  method HandleDelete(store: MerchantStoreState, id: string, reply: Outcome<ApiError>)
    returns (notice: Notice)
    modifies store
    ensures reply.Pass? ==> notice == Success("Commerçant supprimé avec succès")
    ensures reply.Pass? ==> store.View() == old(store.View()).(
      merchants := RemoveById(old(store.merchants), id), total := old(store.total) - 1, isLoading := false, error := None)
    ensures reply.Fail? ==> notice == Failure("Erreur lors de la suppression")
    ensures reply.Fail? ==> store.View() == Failed(old(store.View()), reply.error, DeleteError)
  {
    var sent, outcome := store.DeleteMerchant(id, reply);
    notice := if outcome.Pass? then Success("Commerçant supprimé avec succès") else Failure("Erreur lors de la suppression");
  }

  // ---------------------------------------------------------------------------
  // Columns
  // ---------------------------------------------------------------------------

  /** `category || '-'` */
  function CategoryCell(m: Merchant): (text: string)
    ensures TruthyString(m.category) ==> text == m.category.value
    ensures !TruthyString(m.category) ==> text == "-"
    ensures text != ""
  {
    OrElse(m.category, "-")
  }

  /** `_count?.scans || 0`: the scan count, 0 when the record carries none. */
  function ScansCell(m: Merchant): (n: int)
    ensures m.counts.Some? ==> n == m.counts.value.scans
    ensures m.counts.None? ==> n == 0
  {
    if m.counts.Some? && m.counts.value.scans != 0 then m.counts.value.scans else 0
  }

  /** An antd `Tag`: its text and its colour. */
  datatype Tag = Tag(text: string, colour: string)

  /** The card column: a green "Active" tag exactly when the merchant has a card, else a grey "Aucune". */
  function CardTag(m: Merchant): (tag: Tag)
    ensures tag.text == "Active" <==> m.businessCard.Some?
    ensures tag.colour == "success" <==> m.businessCard.Some?
    ensures m.businessCard.None? ==> tag == Tag("Aucune", "default")
  {
    if m.businessCard.Some? then Tag("Active", "success") else Tag("Aucune", "default")
  }

  /**
   * The list's card tag only says that a card exists: it reads "Active" for
   * a card the cards page shows as expired or inactive.
   */
  lemma CardTagIgnoresCardState(m: Merchant, now: int)
    ensures CardTag(m).text == "Active" <==> CardsPage.StatusOf(m, now) != CardsPage.NotCreated
  {
  }

  /** The status column: a green "Actif" or a red "Inactif". */
  function StatusTag(isActive: bool): (tag: Tag)
    ensures tag.text == "Actif" <==> isActive
    ensures tag.colour == "success" <==> isActive
    ensures !isActive ==> tag == Tag("Inactif", "error")
  {
    if isActive then Tag("Actif", "success") else Tag("Inactif", "error")
  }

  /** The avatar shows the logo, or the business name's first character on the brand colour. */
  datatype Avatar = LogoImage(src: string) | Initial(text: string, background: string)

  function AvatarOf(m: Merchant): (a: Avatar)
    ensures TruthyString(m.logo) <==> a.LogoImage?
    ensures a.LogoImage? ==> a.src == m.logo.value
    ensures a.Initial? ==> a.background == "#667eea" && |a.text| <= 1
    ensures a.Initial? && m.businessName != "" ==> a.text == [m.businessName[0]]
  {
    if TruthyString(m.logo) then LogoImage(m.logo.value)
    else Initial(if m.businessName == "" then "" else m.businessName[..1], "#667eea")
  }

  /** The row actions: view, edit, and delete after confirmation. */
  datatype RowAction = View(path: string) | Edit(path: string) | Delete(id: string)

  function RowActions(m: Merchant): (acts: seq<RowAction>)
    ensures |acts| == 3
    ensures View("/merchants/" + m.id) in acts && Edit("/merchants/" + m.id + "/edit") in acts && Delete(m.id) in acts
    ensures acts[0].View? && acts[1].Edit? && acts[2].Delete?
  {
    [View("/merchants/" + m.id), Edit("/merchants/" + m.id + "/edit"), Delete(m.id)]
  }

  /** The table footer: the number it shows reads back as the store's total. */
  function TotalText(total: int): (text: string)
    ensures |text| > 19 && text[..7] == "Total: " && text[|text| - 12..] == " commerçants"
    ensures ParseInt(text[7..|text| - 12]) == Some(total)
  {
    var digits := IntToString(total);
    IntRoundTrip(total);
    var text := "Total: " + digits + " commerçants";
    assert text[7..|text| - 12] == digits;
    text
  }
}
