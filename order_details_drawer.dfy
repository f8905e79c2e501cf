/** The order details drawer (src/modules/orders/OrderDetailsDrawer.tsx):
    what it shows for an order, above all the six-step progress stepper. */
module OrderDetailsDrawer {
  import opened Wrappers
  import opened Types
  import opened Seqs
  import OrdersPage

  /** statusSteps: the stepper's steps, in order. */
  const StatusSteps: seq<string> := ["pending", "confirmed", "preparing", "ready", "picked_up", "delivered"]

  /** The stepper has one dot per step and one connector between
      neighbouring dots. */
  const StepCount := 6
  const ConnectorCount := 5

  /** Where a status sits on the stepper, stated without the step list:
      -1 for the two statuses that are off it. */
  function StepNumber(status: OrderStatus): (n: int)
    ensures -1 <= n < StepCount
    ensures n == -1 <==> status == Cancelled || status == OrderStatus.Refunded
  {
    match status
    case Pending => 0
    case Confirmed => 1
    case Preparing => 2
    case Ready => 3
    case PickedUp => 4
    case Delivered => 5
    case Cancelled => -1
    case Refunded => -1
  }

  /** currentStepIndex: the position of the status's name in the step list. */
  function CurrentStepIndex(status: OrderStatus): (idx: int)
    ensures -1 <= idx < |StatusSteps|
    ensures 0 <= idx ==> StatusSteps[idx] == OrderStatusName(status)
    ensures idx == -1 <==> OrderStatusName(status) !in StatusSteps
  {
    IndexOf(StatusSteps, OrderStatusName(status))
  }

  /** The status whose name is step `k`. */
  function StepStatus(k: int): OrderStatus
    requires 0 <= k < StepCount
  {
    [OrderStatus.Pending, Confirmed, Preparing, Ready, PickedUp, Delivered][k]
  }

  lemma StepNameAt(k: int)
    requires 0 <= k < StepCount
    ensures StatusSteps[k] == OrderStatusName(StepStatus(k))
    ensures StepNumber(StepStatus(k)) == k
  {
  }

  /** The name lookup agrees with the step numbering, for every status. */
  lemma CurrentStepIndexIsStepNumber(status: OrderStatus)
    ensures CurrentStepIndex(status) == StepNumber(status)
  {
    var idx := CurrentStepIndex(status);
    StatusNamesDistinct();
    if 0 <= idx {
      StepNameAt(idx);
    } else {
      forall k | 0 <= k < StepCount
        ensures status != StepStatus(k)
      {
        StepNameAt(k);
        assert StatusSteps[k] in StatusSteps;
      }
    }
  }

  /** The stepper is hidden only for a cancelled order. */
  function ShowsStepper(status: OrderStatus): (shown: bool)
    ensures !shown ==> StepNumber(status) == -1
    ensures shown && StepNumber(status) == -1 ==> status == OrderStatus.Refunded
  {
    status != Cancelled
  }

  /** The dot colours: dot `i` is filled iff `i <= idx`. */
  function Dots(idx: int): (dots: seq<bool>)
    ensures |dots| == StepCount
    ensures forall i :: 0 <= i < StepCount ==> (dots[i] <==> i <= idx)
  {
    seq(StepCount, i => i <= idx)
  }

  /** The connector colours: connector `i` joins dots `i` and `i + 1` and is
      filled iff `i < idx`, so iff both of its dots are filled. */
  function Connectors(idx: int): (conns: seq<bool>)
    ensures |conns| == ConnectorCount == StepCount - 1
    ensures forall i :: 0 <= i < ConnectorCount ==> (conns[i] <==> i < idx)
  {
    seq(ConnectorCount, i => i < idx)
  }

  /** Connector `i` is filled iff both dots it joins are. */
  lemma ConnectorJoinsFilledDots(idx: int)
    ensures forall i :: 0 <= i < ConnectorCount ==> (Connectors(idx)[i] <==> Dots(idx)[i] && Dots(idx)[i + 1])
  {
    var dots, conns := Dots(idx), Connectors(idx);
    forall i | 0 <= i < ConnectorCount
      ensures conns[i] <==> dots[i] && dots[i + 1]
    {
      assert conns[i] <==> i < idx;
      assert dots[i] <==> i <= idx;
      assert dots[i + 1] <==> i + 1 <= idx;
    }
  }

  /** A mask that is true exactly on its first `k` entries counts `k`. */
  lemma {:induction false} CountTruePrefix(mask: seq<bool>, k: int)
    requires 0 <= k <= |mask|
    requires forall i :: 0 <= i < |mask| ==> (mask[i] <==> i < k)
    ensures CountTrue(mask) == k
    decreases |mask|
  {
    if mask != [] {
      if k == 0 {
        CountTruePrefix(mask[1..], 0);
      } else {
        CountTruePrefix(mask[1..], k - 1);
      }
    }
  }

  /** The stepper fills `idx + 1` dots and `idx` connectors (none for a
      refunded order, whose index is -1). */
  lemma FilledCounts(idx: int)
    requires -1 <= idx < StepCount
    ensures CountTrue(Dots(idx)) == idx + 1
    ensures CountTrue(Connectors(idx)) == if idx < 0 then 0 else idx
  {
    CountTruePrefix(Dots(idx), idx + 1);
    CountTruePrefix(Connectors(idx), if idx < 0 then 0 else idx);
  }

  /** A status further along fills every dot and connector an earlier one
      fills. */
  lemma LaterStatusFillsMore(s1: OrderStatus, s2: OrderStatus)
    requires StepNumber(s1) <= StepNumber(s2)
    ensures forall i :: 0 <= i < StepCount && Dots(CurrentStepIndex(s1))[i] ==> Dots(CurrentStepIndex(s2))[i]
    ensures forall i :: 0 <= i < ConnectorCount && Connectors(CurrentStepIndex(s1))[i] ==> Connectors(CurrentStepIndex(s2))[i]
  {
    CurrentStepIndexIsStepNumber(s1);
    CurrentStepIndexIsStepNumber(s2);
  }

  /** A delivered order fills the whole stepper; a refunded one shows it
      with nothing filled. */
  lemma StepperExtremes()
    ensures forall i :: 0 <= i < StepCount ==> Dots(CurrentStepIndex(Delivered))[i]
    ensures ShowsStepper(OrderStatus.Refunded)
    ensures forall i :: 0 <= i < StepCount ==> !Dots(CurrentStepIndex(OrderStatus.Refunded))[i]
  {
    CurrentStepIndexIsStepNumber(Delivered);
    CurrentStepIndexIsStepNumber(OrderStatus.Refunded);
  }

  /** The amount of each item line: unit price times quantity. */
  function ItemLines(o: Order): (amounts: seq<real>)
    ensures |amounts| == |o.items|
    ensures forall i :: 0 <= i < |o.items| ==> amounts[i] == o.items[i].price * o.items[i].quantity as real
  {
    seq(|o.items|, i requires 0 <= i < |o.items| => o.items[i].price * o.items[i].quantity as real)
  }

  /** The "Update Status" button: hidden for cancelled and delivered orders. */
  function ShowsUpdateStatus(status: OrderStatus): (shown: bool)
    ensures shown ==> ShowsStepper(status) && StepNumber(status) < StepCount - 1
    ensures StepNumber(status) == StepCount - 1 ==> !shown
  {
    ShowsStepper(status) && status != Delivered
  }

  /** The drawer's button appears exactly when the orders table offers its
      status actions. */
  lemma UpdateStatusMatchesRowActions(status: OrderStatus)
    ensures ShowsUpdateStatus(status) <==> OrdersPage.OffersStatusActions(status)
    ensures ShowsUpdateStatus(status) <==> status != Cancelled && status != Delivered
  {
  }

  /** What the drawer shows for an order. */
  datatype DrawerView = DrawerView(
    showStepper: bool,
    dots: seq<bool>,
    connectors: seq<bool>,
    showDeliveryPartner: bool,
    itemLines: seq<real>,
    showDiscount: bool,
    showUpdateStatus: bool)

  /** The drawer: nothing without an order. */
  function Render(order: Option<Order>): (view: Option<DrawerView>)
    ensures view.None? <==> order.None?
    ensures order.Some? ==> var o := order.value; var v := view.value;
      && |v.dots| == StepCount && |v.connectors| == ConnectorCount
      && (v.showStepper <==> o.status != Cancelled)
      && (forall i :: 0 <= i < StepCount ==> (v.dots[i] <==> i <= StepNumber(o.status)))
      && (forall i :: 0 <= i < ConnectorCount ==> (v.connectors[i] <==> i < StepNumber(o.status)))
      && (v.showDeliveryPartner <==> o.deliveryPartnerName.Some? && o.deliveryPartnerName.value != "")
      && v.itemLines == ItemLines(o)
      && (v.showDiscount <==> o.discount > 0.0)
      && (v.showUpdateStatus <==> o.status != Cancelled && o.status != Delivered)
  {
    match order
    case None => None
    case Some(o) =>
      var idx := CurrentStepIndex(o.status);
      CurrentStepIndexIsStepNumber(o.status);
      Some(DrawerView(
        ShowsStepper(o.status),
        Dots(idx),
        Connectors(idx),
        o.deliveryPartnerName.Some? && o.deliveryPartnerName.value != "",
        ItemLines(o),
        o.discount > 0.0,
        ShowsUpdateStatus(o.status)))
  }
}
