/** The admin orders panel `src/pages/admin/AdminPanel/OrdersManagement.js`:
    the status table and its colour and label lookups with their fallbacks,
    the status filter, and the handlers that load orders, update a status,
    delete an order and open or close the details modal. */
module OrdersManagement {
  import opened Common
  import opened Text

  /** One entry of `statusOptions`. */
  datatype StatusOption = StatusOption(value: string, caption: string, color: string)

  const StatusOptions: seq<StatusOption> := [
    StatusOption("pending", "Pendente", "yellow"),
    StatusOption("confirmed", "Confirmado", "blue"),
    StatusOption("preparing", "Preparando", "purple"),
    StatusOption("delivering", "Em Entrega", "indigo"),
    StatusOption("completed", "Concluído", "green"),
    StatusOption("cancelled", "Cancelado", "red")
  ]

  const FallbackColor := "gray"
  const AllStatuses := "all"

  /** `statusOptions.find(s => s.value === status)` over any option list. */
  function FindOption(options: seq<StatusOption>, status: string): (r: Option<StatusOption>)
    ensures r.Some? ==> r.value in options && r.value.value == status
    ensures r.None? <==> forall i :: 0 <= i < |options| ==> options[i].value != status
  {
    if options == [] then None
    else if options[0].value == status then Some(options[0])
    else FindOption(options[1..], status)
  }

  /** `getStatusColor`: the option's colour, or gray. */
  function StatusColor(status: string): (c: string)
    ensures FindOption(StatusOptions, status).None? ==> c == FallbackColor
    ensures FindOption(StatusOptions, status).Some? ==> c == OrElse(FindOption(StatusOptions, status).value.color, FallbackColor)
  {
    var found := FindOption(StatusOptions, status);
    if found.Some? then OrElse(found.value.color, FallbackColor) else FallbackColor
  }

  /** `getStatusLabel`: the option's label, or the status itself. */
  function StatusLabel(status: string): (l: string)
    ensures FindOption(StatusOptions, status).None? ==> l == status
    ensures FindOption(StatusOptions, status).Some? ==> l == OrElse(FindOption(StatusOptions, status).value.caption, status)
  {
    var found := FindOption(StatusOptions, status);
    if found.Some? then OrElse(found.value.caption, status) else status
  }

  /** No two options share a value, so the lookup is a function of the status. */
  lemma StatusValuesDistinct()
    ensures forall i, j :: 0 <= i < |StatusOptions| && 0 <= j < |StatusOptions| && StatusOptions[i].value == StatusOptions[j].value ==> i == j
  {
  }

  /** The lookups return the configured colour and label of every option in
      the table, and the fallbacks for any status outside it. */
  lemma {:induction false} LookupsFollowTable(status: string)
    ensures forall i :: 0 <= i < |StatusOptions| && StatusOptions[i].value == status ==>
              StatusColor(status) == StatusOptions[i].color && StatusLabel(status) == StatusOptions[i].caption
    ensures (forall i :: 0 <= i < |StatusOptions| ==> StatusOptions[i].value != status) ==>
              StatusColor(status) == FallbackColor && StatusLabel(status) == status
  {
    var found := FindOption(StatusOptions, status);
    if found.Some? {
      StatusValuesDistinct();
      var k :| 0 <= k < |StatusOptions| && StatusOptions[k] == found.value;
      forall i | 0 <= i < |StatusOptions| && StatusOptions[i].value == status
        ensures StatusOptions[i] == found.value
      {
        assert StatusOptions[i].value == StatusOptions[k].value;
      }
    }
  }

  /** An order of the list; `id` is its `_id`. */
  datatype PanelOrder = PanelOrder(id: string, status: string, total: int, customer: string)

  predicate HasStatus(status: string, o: PanelOrder) { o.status == status }

  /** The callback `order => order.status === status`. */
  function StatusIs(status: string): PanelOrder -> bool {
    (o: PanelOrder) => HasStatus(status, o)
  }

  /** `filteredOrders`. */
  function FilterOrders(orders: seq<PanelOrder>, filterStatus: string): (r: seq<PanelOrder>)
    ensures filterStatus == AllStatuses ==> r == orders
    ensures forall i :: 0 <= i < |r| ==> r[i] in orders
  {
    if filterStatus == AllStatuses then orders
    else Filter(StatusIs(filterStatus), orders)
  }

  /** A status filter keeps exactly the orders with that status, in order. */
  lemma FilterOrdersKeepsExactly(orders: seq<PanelOrder>, filterStatus: string)
    requires filterStatus != AllStatuses
    ensures IsSubsequence(FilterOrders(orders, filterStatus), orders)
    ensures forall i :: 0 <= i < |FilterOrders(orders, filterStatus)| ==> FilterOrders(orders, filterStatus)[i].status == filterStatus
    ensures forall i :: 0 <= i < |orders| && orders[i].status == filterStatus ==> orders[i] in FilterOrders(orders, filterStatus)
    ensures |FilterOrders(orders, filterStatus)| == Count(StatusIs(filterStatus), orders)
  {
    FilterLengthIsCount(StatusIs(filterStatus), orders);
  }

  /** What a request produced. `message` is `err.response?.data?.message`. */
  datatype Outcome<T> = Ok(value: T) | Err(message: Option<string>)

  datatype OrderCall = GetAllOrders(page: int, limit: int) | GetMyOrders | UpdateOrderStatus(id: string, status: string) | DeleteOrder(id: string)

  const LoadError := "Erro ao carregar pedidos"
  const UpdatedMessage := "Status do pedido atualizado com sucesso!"
  const UpdateError := "Erro ao atualizar status do pedido"
  const DeletedMessage := "Pedido excluído com sucesso!"
  const DeleteError := "Erro ao excluir pedido"

  /** `err.response?.data?.message || fallback`. */
  function ErrorText(message: Option<string>, fallback: string): (t: string)
    requires fallback != ""
    ensures t != ""
    ensures message.Some? && message.value != "" ==> t == message.value
    ensures message.None? || message.value == "" ==> t == fallback
  {
    OrElse(message.GetOr(""), fallback)
  }

  /** The requests `loadOrders` makes: the admin listing, then the
      customer's own orders when the first fails. */
  function LoadCalls(primary: Outcome<seq<PanelOrder>>): (cs: seq<OrderCall>)
    ensures |cs| >= 1 && cs[0] == GetAllOrders(1, 100)
    ensures primary.Ok? <==> |cs| == 1
    ensures primary.Ok? ==> cs == [GetAllOrders(1, 100)]
    ensures primary.Err? ==> cs == [GetAllOrders(1, 100), GetMyOrders]
  {
    [GetAllOrders(1, 100)] + (if primary.Err? then [GetMyOrders] else [])
  }

  /** The order list after `loadOrders`: the first listing that arrived, or
      the previous list when both failed. */
  function LoadedOrders(previous: seq<PanelOrder>, primary: Outcome<seq<PanelOrder>>, fallback: Outcome<seq<PanelOrder>>): seq<PanelOrder> {
    if primary.Ok? then primary.value else if fallback.Ok? then fallback.value else previous
  }

  /** The panel's state cells. */
  class OrdersPanel {
    var orders: seq<PanelOrder>
    var loading: bool
    var selectedOrder: Option<PanelOrder>
    var showDetailsModal: bool
    var error: string
    var success: string
    var filterStatus: string

    constructor ()
      ensures orders == [] && loading && selectedOrder == None && !showDetailsModal
      ensures error == "" && success == "" && filterStatus == AllStatuses
    {
      orders, loading, selectedOrder, showDetailsModal := [], true, None, false;
      error, success, filterStatus := "", "", AllStatuses;
    }

    /** `loadOrders`. */
    method LoadOrders(primary: Outcome<seq<PanelOrder>>, fallback: Outcome<seq<PanelOrder>>) returns (calls: seq<OrderCall>)
      modifies this
      ensures calls == LoadCalls(primary)
      ensures orders == LoadedOrders(old(orders), primary, fallback) && !loading
      ensures error == (if primary.Err? && fallback.Err? then LoadError else old(error))
      ensures selectedOrder == old(selectedOrder) && showDetailsModal == old(showDetailsModal)
      ensures success == old(success) && filterStatus == old(filterStatus)
    {
      loading := true;
      calls := [GetAllOrders(1, 100)];
      if primary.Ok? {
        orders := primary.value;
      } else {
        calls := calls + [GetMyOrders];
        if fallback.Ok? {
          orders := fallback.value;
        } else {
          error := LoadError;
        }
      }
      loading := false;
    }

    /** `handleViewDetails`. */
    method HandleViewDetails(order: PanelOrder)
      modifies this
      ensures selectedOrder == Some(order) && showDetailsModal
      ensures orders == old(orders) && loading == old(loading) && error == old(error)
      ensures success == old(success) && filterStatus == old(filterStatus)
    {
      selectedOrder := Some(order);
      showDetailsModal := true;
    }

    /** `handleUpdateStatus`. On success the list is reloaded (`reload` and
        `reloadFallback` are that reload's outcomes) and an open selection
        with the same id takes the new status. */
    method HandleUpdateStatus(orderId: string, newStatus: string, outcome: Outcome<()>,
                              reload: Outcome<seq<PanelOrder>>, reloadFallback: Outcome<seq<PanelOrder>>)
      returns (calls: seq<OrderCall>)
      modifies this
      ensures outcome.Err? ==> calls == [UpdateOrderStatus(orderId, newStatus)]
      ensures outcome.Err? ==> error == ErrorText(outcome.message, UpdateError) && success == old(success)
      ensures outcome.Err? ==> orders == old(orders) && selectedOrder == old(selectedOrder) && loading == old(loading)
      ensures outcome.Ok? ==> calls == [UpdateOrderStatus(orderId, newStatus)] + LoadCalls(reload)
      ensures outcome.Ok? ==> success == UpdatedMessage && !loading
      ensures outcome.Ok? ==> orders == LoadedOrders(old(orders), reload, reloadFallback)
      ensures outcome.Ok? ==> error == (if reload.Err? && reloadFallback.Err? then LoadError else old(error))
      ensures outcome.Ok? && old(selectedOrder).Some? && old(selectedOrder).value.id == orderId ==>
                selectedOrder == Some(old(selectedOrder).value.(status := newStatus))
      ensures outcome.Ok? && (old(selectedOrder).None? || old(selectedOrder).value.id != orderId) ==>
                selectedOrder == old(selectedOrder)
      ensures showDetailsModal == old(showDetailsModal) && filterStatus == old(filterStatus)
    {
      calls := [UpdateOrderStatus(orderId, newStatus)];
      if outcome.Ok? {
        success := UpdatedMessage;
        var loadCalls := LoadOrders(reload, reloadFallback);
        calls := calls + loadCalls;
        if selectedOrder.Some? && selectedOrder.value.id == orderId {
          selectedOrder := Some(selectedOrder.value.(status := newStatus));
        }
      } else {
        error := ErrorText(outcome.message, UpdateError);
      }
    }

    /** `handleDelete`; `confirmed` is the answer to the confirmation prompt. */
    method HandleDelete(id: string, confirmed: bool, outcome: Outcome<()>,
                        reload: Outcome<seq<PanelOrder>>, reloadFallback: Outcome<seq<PanelOrder>>)
      returns (calls: seq<OrderCall>)
      modifies this
      ensures !confirmed ==> calls == [] && orders == old(orders) && selectedOrder == old(selectedOrder)
      ensures !confirmed ==> showDetailsModal == old(showDetailsModal) && error == old(error) && success == old(success)
      ensures !confirmed || outcome.Err? ==> loading == old(loading)
      ensures confirmed && outcome.Err? ==> calls == [DeleteOrder(id)] && error == ErrorText(outcome.message, DeleteError)
      ensures confirmed && outcome.Err? ==> selectedOrder == old(selectedOrder) && showDetailsModal == old(showDetailsModal)
      ensures confirmed && outcome.Err? ==> orders == old(orders) && success == old(success)
      ensures confirmed && outcome.Ok? ==> calls == [DeleteOrder(id)] + LoadCalls(reload) && success == DeletedMessage
      ensures confirmed && outcome.Ok? ==> orders == LoadedOrders(old(orders), reload, reloadFallback) && !loading
      ensures confirmed && outcome.Ok? ==> error == (if reload.Err? && reloadFallback.Err? then LoadError else old(error))
      ensures confirmed && outcome.Ok? && old(showDetailsModal) ==> !showDetailsModal && selectedOrder == None
      ensures confirmed && outcome.Ok? && !old(showDetailsModal) ==> !showDetailsModal && selectedOrder == old(selectedOrder)
      ensures filterStatus == old(filterStatus)
    {
      calls := [];
      if !confirmed {
        return;
      }
      calls := [DeleteOrder(id)];
      if outcome.Ok? {
        success := DeletedMessage;
        var loadCalls := LoadOrders(reload, reloadFallback);
        calls := calls + loadCalls;
        if showDetailsModal {
          showDetailsModal := false;
          selectedOrder := None;
        }
      } else {
        error := ErrorText(outcome.message, DeleteError);
      }
    }

    /** `closeModal`. */
    method CloseModal()
      modifies this
      ensures !showDetailsModal && selectedOrder == None
      ensures orders == old(orders) && loading == old(loading) && error == old(error)
      ensures success == old(success) && filterStatus == old(filterStatus)
    {
      showDetailsModal := false;
      selectedOrder := None;
    }

    /** The rows shown under the current filter. */
    function Visible(): (r: seq<PanelOrder>)
      reads this
      ensures filterStatus == AllStatuses ==> r == orders
      ensures forall i :: 0 <= i < |r| ==> r[i] in orders
    {
      FilterOrders(orders, filterStatus)
    }
  }
}
