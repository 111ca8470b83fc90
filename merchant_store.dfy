/**
 * The merchant list store (src/hooks/merchantStore.ts): the merchants of the
 * current page, pagination, filters, the merchant being viewed, and the
 * loading and error flags. Each action sends one request and applies the
 * server's reply, given here as a parameter.
 */
module MerchantStore {
  import opened Wrappers
  import opened JsValues
  import opened Types
  import opened Api
  import opened MerchantService

  const LoadError := "Erreur lors du chargement"
  const CreateError := "Erreur lors de la création"
  const UpdateError := "Erreur lors de la mise à jour"
  const DeleteError := "Erreur lors de la suppression"
  const ToggleError := "Erreur lors du changement de statut"

  /** The list with every merchant carrying `id` replaced by `m`. */
  function ReplaceById(ms: seq<Merchant>, id: string, m: Merchant): (r: seq<Merchant>)
    ensures |r| == |ms|
    ensures forall i :: 0 <= i < |ms| ==> r[i] == if ms[i].id == id then m else ms[i]
  {
    if |ms| == 0 then []
    else [if ms[0].id == id then m else ms[0]] + ReplaceById(ms[1..], id, m)
  }

  /** The list without the merchants carrying `id`, the others in their order. */
  function RemoveById(ms: seq<Merchant>, id: string): (r: seq<Merchant>)
    ensures forall x :: x in r <==> x in ms && x.id != id
    ensures |r| <= |ms|
    ensures (forall i :: 0 <= i < |ms| ==> ms[i].id != id) ==> r == ms
  {
    if |ms| == 0 then []
    else (if ms[0].id == id then [] else [ms[0]]) + RemoveById(ms[1..], id)
  }

  /** Removal keeps order: removing from two runs is removing from each. */
  lemma {:induction false} RemoveByIdAppend(a: seq<Merchant>, b: seq<Merchant>, id: string)
    ensures RemoveById(a + b, id) == RemoveById(a, id) + RemoveById(b, id)
    decreases |a|
  {
    if |a| == 0 {
      assert a + b == b;
    } else {
      assert (a + b)[1..] == a[1..] + b;
      RemoveByIdAppend(a[1..], b, id);
    }
  }

  /** Deleting a merchant after updating it removes the same merchants as deleting it outright. */
  lemma {:induction false} RemoveAfterReplace(ms: seq<Merchant>, id: string, m: Merchant)
    requires m.id == id
    ensures RemoveById(ReplaceById(ms, id, m), id) == RemoveById(ms, id)
    decreases |ms|
  {
    if |ms| > 0 {
      var r := ReplaceById(ms, id, m);
      assert r[1..] == ReplaceById(ms[1..], id, m);
      RemoveAfterReplace(ms[1..], id, m);
    }
  }

  /** The current merchant after an update of `id`: replaced only if it is that merchant. */
  function UpdatedCurrent(current: Option<Merchant>, id: string, m: Merchant): (r: Option<Merchant>)
    ensures current.Some? && current.value.id == id ==> r == Some(m)
    ensures !(current.Some? && current.value.id == id) ==> r == current
  {
    if current.Some? && current.value.id == id then Some(m) else current
  }

  /** All the fields of the store, for stating what an action changes and what it leaves alone. */
  datatype State = State(
    merchants: seq<Merchant>,
    currentMerchant: Option<Merchant>,
    total: int,
    page: int,
    limit: int,
    totalPages: int,
    isLoading: bool,
    error: Option<string>,
    filters: MerchantFilters)

  const InitialState := State([], None, 0, 1, 10, 0, false, None, NoFilters)

  /** The state a failed action leaves: its error text, loading over, all else as before the action. */
  function Failed(s: State, e: ApiError, fallback: string): (t: State)
    ensures t.error == Some(OrElse(e.message, fallback)) && !t.isLoading
    ensures t.merchants == s.merchants && t.total == s.total && t.currentMerchant == s.currentMerchant
    ensures t.page == s.page && t.limit == s.limit && t.totalPages == s.totalPages && t.filters == s.filters
  {
    s.(isLoading := false, error := Some(OrElse(e.message, fallback)))
  }

  /** The state a successful listing leaves: the reply's page and pagination, and the filters it was asked with. */
  function Listed(s: State, reply: ListReply, f: MerchantFilters): (t: State)
    ensures t.merchants == reply.merchants && t.filters == f
    ensures t.total == reply.pagination.total && t.page == reply.pagination.page
    ensures t.limit == reply.pagination.limit && t.totalPages == reply.pagination.totalPages
    ensures !t.isLoading && t.error == None && t.currentMerchant == s.currentMerchant
  {
    s.(merchants := reply.merchants,
       total := reply.pagination.total,
       page := reply.pagination.page,
       limit := reply.pagination.limit,
       totalPages := reply.pagination.totalPages,
       filters := f,
       isLoading := false,
       error := None)
  }

  class MerchantStoreState {
    var merchants: seq<Merchant>
    var currentMerchant: Option<Merchant>
    var total: int
    var page: int
    var limit: int
    var totalPages: int
    var isLoading: bool
    var error: Option<string>
    var filters: MerchantFilters

    function View(): State
      reads this
    {
      State(merchants, currentMerchant, total, page, limit, totalPages, isLoading, error, filters)
    }

    constructor ()
      ensures View() == InitialState
    {
      merchants := [];
      currentMerchant := None;
      total := 0;
      page := 1;
      limit := 10;
      totalPages := 0;
      isLoading := false;
      error := None;
      filters := NoFilters;
    }

    /** What every asynchronous action does first: loading on, error cleared. */
    method BeginRequest()
      modifies this
      ensures View() == old(View()).(isLoading := true, error := None)
    {
      isLoading := true;
      error := None;
    }

    method EndWithError(e: ApiError, fallback: string)
      modifies this
      ensures View() == old(View()).(isLoading := false, error := Some(OrElse(e.message, fallback)))
    {
      isLoading := false;
      error := Some(OrElse(e.message, fallback));
    }

    /**
     * `fetchMerchants`: lists with the given filters, or the stored ones when
     * none are given; on success stores the page, its pagination and those filters.
     */
    method FetchMerchants(given: Option<MerchantFilters>, reply: Result<ListReply, ApiError>)
      returns (sent: Request, outcome: Outcome<ApiError>)
      modifies this
      ensures sent.verb == GET && sent.path == "/merchants"
      ensures sent.query == QueryParams(if given.Some? then given.value else old(filters))
      ensures reply.Ok? ==> outcome == Pass
      ensures reply.Ok? ==> View() == Listed(old(View()), reply.value, if given.Some? then given.value else old(filters))
      ensures reply.Err? ==> outcome == Fail(reply.error) && View() == Failed(old(View()), reply.error, LoadError)
    {
      BeginRequest();
      var finalFilters := if given.Some? then given.value else filters;
      sent := GetAllRequest(finalFilters);
      match reply {
        case Ok(r) =>
          var result := GetAllResult(r);
          merchants := result.data;
          total := result.pagination.total;
          page := result.pagination.page;
          limit := result.pagination.limit;
          totalPages := result.pagination.totalPages;
          filters := finalFilters;
          isLoading := false;
          outcome := Pass;
        case Err(e) =>
          EndWithError(e, LoadError);
          outcome := Fail(e);
      }
    }

    /** `fetchMerchantById`: on success the fetched merchant becomes the current one. */
    method FetchMerchantById(id: string, reply: Result<Merchant, ApiError>)
      returns (sent: Request, outcome: Outcome<ApiError>)
      modifies this
      ensures sent == GetByIdRequest(id)
      ensures reply.Ok? ==> outcome == Pass && View() == old(View()).(
        currentMerchant := Some(reply.value), isLoading := false, error := None)
      ensures reply.Err? ==> outcome == Fail(reply.error) && View() == Failed(old(View()), reply.error, LoadError)
    {
      BeginRequest();
      sent := GetByIdRequest(id);
      match reply {
        case Ok(m) =>
          currentMerchant := Some(m);
          isLoading := false;
          outcome := Pass;
        case Err(e) =>
          EndWithError(e, LoadError);
          outcome := Fail(e);
      }
    }

    /** `createMerchant`: on success the new merchant goes first and the total grows by one. */
    method CreateMerchant(fields: seq<(string, FieldValue)>, logo: Option<File>, reply: Result<Merchant, ApiError>)
      returns (sent: Request, result: Result<Merchant, ApiError>)
      modifies this
      ensures sent.verb == POST && sent.path == "/merchants" && sent.body == FormBody(FormFields(fields) + LogoEntry(logo))
      ensures result == reply
      ensures reply.Ok? ==> View() == old(View()).(
        merchants := [reply.value] + old(merchants), total := old(total) + 1, isLoading := false, error := None)
      ensures reply.Err? ==> View() == Failed(old(View()), reply.error, CreateError)
    {
      BeginRequest();
      sent := CreateRequest(fields, logo);
      match reply {
        case Ok(m) =>
          merchants := [m] + merchants;
          total := total + 1;
          isLoading := false;
        case Err(e) =>
          EndWithError(e, CreateError);
      }
      result := reply;
    }

    /** `updateMerchant`: on success the updated merchant replaces every copy with that id. */
    method UpdateMerchant(id: string, fields: seq<(string, FieldValue)>, logo: Option<File>, reply: Result<Merchant, ApiError>)
      returns (sent: Request, outcome: Outcome<ApiError>)
      modifies this
      ensures sent.verb == PUT && sent.path == "/merchants/" + id && sent.body == FormBody(FormFields(fields) + LogoEntry(logo))
      ensures reply.Ok? ==> outcome == Pass && View() == old(View()).(
        merchants := ReplaceById(old(merchants), id, reply.value),
        currentMerchant := UpdatedCurrent(old(currentMerchant), id, reply.value),
        isLoading := false,
        error := None)
      ensures reply.Err? ==> outcome == Fail(reply.error) && View() == Failed(old(View()), reply.error, UpdateError)
    {
      BeginRequest();
      sent := UpdateRequest(id, fields, logo);
      match reply {
        case Ok(m) =>
          merchants := ReplaceById(merchants, id, m);
          currentMerchant := UpdatedCurrent(currentMerchant, id, m);
          isLoading := false;
          outcome := Pass;
        case Err(e) =>
          EndWithError(e, UpdateError);
          outcome := Fail(e);
      }
    }

    /** `deleteMerchant`: on success the merchants with that id go and the total drops by one, matched or not. */
    method DeleteMerchant(id: string, reply: Outcome<ApiError>)
      returns (sent: Request, outcome: Outcome<ApiError>)
      modifies this
      ensures sent == DeleteRequest(id)
      ensures outcome == reply
      ensures reply.Pass? ==> View() == old(View()).(
        merchants := RemoveById(old(merchants), id), total := old(total) - 1, isLoading := false, error := None)
      ensures reply.Fail? ==> View() == Failed(old(View()), reply.error, DeleteError)
    {
      BeginRequest();
      sent := DeleteRequest(id);
      match reply {
        case Pass =>
          merchants := RemoveById(merchants, id);
          total := total - 1;
          isLoading := false;
        case Fail(e) =>
          EndWithError(e, DeleteError);
      }
      outcome := reply;
    }

    /** `toggleMerchantStatus`: like an update, with the merchant the server returns. */
    method ToggleMerchantStatus(id: string, reply: Result<Merchant, ApiError>)
      returns (sent: Request, outcome: Outcome<ApiError>)
      modifies this
      ensures sent == ToggleStatusRequest(id)
      ensures reply.Ok? ==> outcome == Pass && View() == old(View()).(
        merchants := ReplaceById(old(merchants), id, reply.value),
        currentMerchant := UpdatedCurrent(old(currentMerchant), id, reply.value),
        isLoading := false,
        error := None)
      ensures reply.Err? ==> outcome == Fail(reply.error) && View() == Failed(old(View()), reply.error, ToggleError)
    {
      BeginRequest();
      sent := ToggleStatusRequest(id);
      match reply {
        case Ok(m) =>
          merchants := ReplaceById(merchants, id, m);
          currentMerchant := UpdatedCurrent(currentMerchant, id, m);
          isLoading := false;
          outcome := Pass;
        case Err(e) =>
          EndWithError(e, ToggleError);
          outcome := Fail(e);
      }
    }

    method SetFilters(f: MerchantFilters)
      modifies this
      ensures View() == old(View()).(filters := f)
    {
      filters := f;
    }

    method ClearError()
      modifies this
      ensures View() == old(View()).(error := None)
    {
      error := None;
    }

    method SetCurrentMerchant(m: Option<Merchant>)
      modifies this
      ensures View() == old(View()).(currentMerchant := m)
    {
      currentMerchant := m;
    }
  }
}
