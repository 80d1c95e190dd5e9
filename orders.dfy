/** The order provider: the user's order list, the order opened in detail,
    and the merge of a newly submitted rating into that order. */
module Orders {
  import opened Wrappers
  import opened Alerts

  /** An order as the service returns it; the fields the provider never
      touches are kept as `status` and `totalCents`. */
  datatype Order = Order(
    id: string,
    status: string,
    totalCents: int,
    orderRating: Option<int>,
    orderComment: Option<string>)

  /** The rating record the rating service returns. */
  datatype NewRating = NewRating(rating: int, comment: string)

  /** `FETCH_ORDER_ERROR` */
  const FetchOrdersError: string := "Failed to fetch orders."
  /** `FETCH_ORDER_DETAIL_ERROR` */
  const FetchOrderDetailError: string := "Failed to fetch order details."
  /** `SUBMIT_RATING_ERROR` */
  const SubmitRatingError: string := "Failed to submit rating."

  /** The `setSelectedOrder` updater of `submitOrderRating`. */
  function MergeRating(prevOrder: Option<Order>, orderId: string, newRating: NewRating): Option<Order>
  {
    if prevOrder.Some? && prevOrder.value.id == orderId then
      Some(prevOrder.value.(orderRating := Some(newRating.rating), orderComment := Some(newRating.comment)))
    else prevOrder
  }

  /** The merge touches only the order whose id was rated, and of it only the
      rating and comment; merging the same rating twice changes nothing more,
      and of two ratings of the same order the later one wins. */
  lemma MergeRatingTargetsOneOrder(prevOrder: Option<Order>, orderId: string, r: NewRating, r2: NewRating)
    ensures MergeRating(prevOrder, orderId, r).Some? <==> prevOrder.Some?
    ensures prevOrder.Some? && prevOrder.value.id == orderId ==>
      var o := MergeRating(prevOrder, orderId, r).value;
      && o.id == prevOrder.value.id && o.status == prevOrder.value.status
      && o.totalCents == prevOrder.value.totalCents
      && o.orderRating == Some(r.rating) && o.orderComment == Some(r.comment)
    ensures !(prevOrder.Some? && prevOrder.value.id == orderId) ==> MergeRating(prevOrder, orderId, r) == prevOrder
    ensures MergeRating(MergeRating(prevOrder, orderId, r), orderId, r) == MergeRating(prevOrder, orderId, r)
    ensures MergeRating(MergeRating(prevOrder, orderId, r), orderId, r2) == MergeRating(prevOrder, orderId, r2)
  {
  }

  /** The order provider's state; alerts go to the alert provider. */
  class OrderStore {
    var orders: seq<Order>
    var selectedOrder: Option<Order>
    var isLoading: bool
    var isDetailLoading: bool
    const alerts: AlertProvider

    constructor (alerts: AlertProvider)
      ensures orders == [] && selectedOrder == None && !isLoading && !isDetailLoading
      ensures this.alerts == alerts
    {
      orders, selectedOrder, isLoading, isDetailLoading := [], None, false, false;
      this.alerts := alerts;
    }

    /** `fetchOrders` for the signed-in user's id ("" when there is no user or
        no id), with the service's outcome: without an id nothing happens;
        otherwise success stores the list, failure empties it and shows an
        error alert, and loading is off afterwards. */
    method FetchOrders(userId: string, outcome: Outcome<seq<Order>>)
      requires alerts.Valid()
      modifies this, alerts
      ensures alerts.Valid()
      ensures userId == "" ==> orders == old(orders) && isLoading == old(isLoading)
      ensures userId == "" ==> alerts.state == old(alerts.state) && alerts.pendingTimer == old(alerts.pendingTimer) && alerts.shows == old(alerts.shows)
      ensures userId != "" ==> !isLoading
      ensures userId != "" && outcome.Ok? ==> orders == outcome.value
      ensures userId != "" && outcome.Ok? ==> alerts.state == old(alerts.state) && alerts.pendingTimer == old(alerts.pendingTimer) && alerts.shows == old(alerts.shows)
      ensures userId != "" && outcome.Failed? ==>
        && orders == []
        && alerts.state == Shown(MessageOr(outcome.message, FetchOrdersError), Some("error"), None, None)
        && alerts.shows == old(alerts.shows) + 1
        && alerts.pendingTimer == TimerAfter(old(alerts.state), alerts.state, old(alerts.pendingTimer), alerts.shows)
      ensures selectedOrder == old(selectedOrder) && isDetailLoading == old(isDetailLoading)
    {
      if userId == "" {
        return;
      }
      isLoading := true;
      match outcome {
        case Ok(userOrders) =>
          orders := userOrders;
        case Failed(message) =>
          alerts.ShowAlert(MessageOr(message, FetchOrdersError), Some("error"), None, None);
          orders := [];
      }
      isLoading := false;
    }

    /** `fetchOrderDetails` with the service's outcome: success selects and
        returns the order, failure shows an error alert and clears the
        selection; detail loading is off afterwards. */
    method FetchOrderDetails(outcome: Outcome<Order>) returns (result: Option<Order>)
      requires alerts.Valid()
      modifies this, alerts
      ensures alerts.Valid()
      ensures !isDetailLoading
      ensures outcome.Ok? ==> selectedOrder == result == Some(outcome.value)
      ensures outcome.Ok? ==> alerts.state == old(alerts.state) && alerts.pendingTimer == old(alerts.pendingTimer) && alerts.shows == old(alerts.shows)
      ensures outcome.Failed? ==>
        && selectedOrder == result == None
        && alerts.state == Shown(MessageOr(outcome.message, FetchOrderDetailError), Some("error"), None, None)
        && alerts.shows == old(alerts.shows) + 1
        && alerts.pendingTimer == TimerAfter(old(alerts.state), alerts.state, old(alerts.pendingTimer), alerts.shows)
      ensures orders == old(orders) && isLoading == old(isLoading)
    {
      isDetailLoading := true;
      match outcome {
        case Ok(orderDetails) =>
          selectedOrder := Some(orderDetails);
          result := Some(orderDetails);
        case Failed(message) =>
          alerts.ShowAlert(MessageOr(message, FetchOrderDetailError), Some("error"), None, None);
          selectedOrder := None;
          result := None;
      }
      isDetailLoading := false;
    }

    /** `clearSelectedOrder` */
    method ClearSelectedOrder()
      modifies this
      ensures selectedOrder == None
      ensures orders == old(orders) && isLoading == old(isLoading) && isDetailLoading == old(isDetailLoading)
    {
      selectedOrder := None;
    }

    /** `submitOrderRating` with the rating service's outcome: success merges
        the new rating into the selected order when it is the rated one and
        returns the rating; failure shows an error alert, hands the failure
        back to the caller and leaves the selection untouched. */
    method SubmitOrderRating(orderId: string, outcome: Outcome<NewRating>) returns (result: Outcome<NewRating>)
      requires alerts.Valid()
      modifies this, alerts
      ensures alerts.Valid()
      ensures result == outcome
      ensures outcome.Ok? ==>
        && selectedOrder == MergeRating(old(selectedOrder), orderId, outcome.value)
        && alerts.state == old(alerts.state) && alerts.pendingTimer == old(alerts.pendingTimer) && alerts.shows == old(alerts.shows)
      ensures outcome.Failed? ==>
        && selectedOrder == old(selectedOrder)
        && alerts.state == Shown(MessageOr(outcome.message, SubmitRatingError), Some("error"), None, None)
        && alerts.shows == old(alerts.shows) + 1
        && alerts.pendingTimer == TimerAfter(old(alerts.state), alerts.state, old(alerts.pendingTimer), alerts.shows)
      ensures orders == old(orders) && isLoading == old(isLoading) && isDetailLoading == old(isDetailLoading)
    {
      match outcome {
        case Ok(newRating) =>
          var prevOrder := selectedOrder;
          if prevOrder.Some? && prevOrder.value.id == orderId {
            selectedOrder := Some(prevOrder.value.(orderRating := Some(newRating.rating), orderComment := Some(newRating.comment)));
          }
        case Failed(message) =>
          alerts.ShowAlert(MessageOr(message, SubmitRatingError), Some("error"), None, None);
      }
      result := outcome;
    }
  }
}
