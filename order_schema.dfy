/** The order lifecycle: the states of an order, the table of allowed transitions and the
    predicates derived from it (order_notification/schemas/order.py). */
module OrderSchema {

  datatype OrderState =
    | OrderPlaced
    | VendorNotified
    | OrderAccepted
    | OrderDeclined
    | OrderPreparation
    | OrderReady
    | OrderPickedUp

  /** Human-readable descriptions, keyed by state. */
  const StateDescriptions: map<OrderState, string> := map[
    OrderPlaced := "Order has been placed by the customer",
    VendorNotified := "Restaurant has been notified of the new order",
    OrderAccepted := "Restaurant has accepted the order",
    OrderDeclined := "Restaurant has declined the order",
    OrderPreparation := "Order is being prepared by the restaurant",
    OrderReady := "Order is ready for pickup",
    OrderPickedUp := "Order has been picked up to the customer"
  ]

  const UnknownStateDescription: string := "Unknown state"

  /** The description lookup falls back to "Unknown state" for a state without an entry;
      every state has one, so the fallback is never used. */
  function Description(s: OrderState): (d: string)
    ensures d != UnknownStateDescription
    ensures |d| > 0
  {
    assert s in StateDescriptions by { DescribedStates(s); }
    if s in StateDescriptions then StateDescriptions[s] else UnknownStateDescription
  }

  /** Every state has an entry in the description table. */
  lemma DescribedStates(s: OrderState)
    ensures s in StateDescriptions && StateDescriptions[s] != UnknownStateDescription
  {
    match s
    case OrderPlaced =>
    case VendorNotified =>
    case OrderAccepted =>
    case OrderDeclined =>
    case OrderPreparation =>
    case OrderReady =>
    case OrderPickedUp =>
  }

  /** The transition table, in the order the source lists the successors. */
  const StateTransitions: map<OrderState, seq<OrderState>> := map[
    OrderPlaced := [VendorNotified],
    VendorNotified := [OrderAccepted, OrderDeclined],
    OrderAccepted := [OrderPreparation],
    OrderPreparation := [OrderReady],
    OrderReady := [OrderPickedUp],
    OrderPickedUp := [],
    OrderDeclined := []
  ]

  /** The table lookup, with the empty list for a state the table does not mention. */
  function AllowedNextStates(s: OrderState): seq<OrderState>
  {
    if s in StateTransitions then StateTransitions[s] else []
  }

  predicate IsTerminalState(s: OrderState)
  {
    s in {OrderPickedUp, OrderDeclined}
  }

  predicate RequiresVendorAction(s: OrderState)
  {
    s in {VendorNotified, OrderPreparation, OrderReady}
  }

  predicate CanTransitionTo(s: OrderState, next: OrderState)
  {
    next in AllowedNextStates(s)
  }

  /** The lifecycle relation written out pair by pair, independently of the table. */
  predicate Edge(s: OrderState, next: OrderState)
  {
    || (s == OrderPlaced && next == VendorNotified)
    || (s == VendorNotified && next == OrderAccepted)
    || (s == VendorNotified && next == OrderDeclined)
    || (s == OrderAccepted && next == OrderPreparation)
    || (s == OrderPreparation && next == OrderReady)
    || (s == OrderReady && next == OrderPickedUp)
  }

  /** The position of a state along the lifecycle. */
  function Rank(s: OrderState): (r: nat)
    ensures r <= 5
  {
    match s
    case OrderPlaced => 0
    case VendorNotified => 1
    case OrderAccepted => 2
    case OrderDeclined => 2
    case OrderPreparation => 3
    case OrderReady => 4
    case OrderPickedUp => 5
  }

  /** The table allows exactly the pairs of the lifecycle relation. */
  lemma CanTransitionToIsEdge(s: OrderState, next: OrderState)
    ensures CanTransitionTo(s, next) <==> Edge(s, next)
  {
  }

  /** No state lists itself or any state twice among its successors. */
  lemma AllowedNextStatesDistinct(s: OrderState)
    ensures forall i, j :: 0 <= i < j < |AllowedNextStates(s)| ==> AllowedNextStates(s)[i] != AllowedNextStates(s)[j]
    ensures s !in AllowedNextStates(s)
  {
  }

  /** The terminal states are exactly those with no successor. */
  lemma TerminalIffNoSuccessor(s: OrderState)
    ensures IsTerminalState(s) <==> s in {OrderPickedUp, OrderDeclined}
    ensures IsTerminalState(s) <==> AllowedNextStates(s) == []
  {
  }

  /** The states flagged as needing the vendor are states the order can still leave: the
      vendor-action set and the table agree except at ORDER_PLACED, which the workflow itself
      leaves, and at ACCEPTED, which waits for the prepare step but is not flagged. */
  lemma VendorActionStates(s: OrderState)
    ensures RequiresVendorAction(s) ==> AllowedNextStates(s) != [] && !IsTerminalState(s)
    ensures RequiresVendorAction(s) <==> AllowedNextStates(s) != [] && s != OrderPlaced && s != OrderAccepted
  {
  }

  /** Every allowed transition moves exactly one position forward along the lifecycle. */
  lemma TransitionsMoveForward(s: OrderState, next: OrderState)
    requires CanTransitionTo(s, next)
    ensures Rank(next) == Rank(s) + 1
    ensures next != s
  {
  }

  /** A sequence of states, each allowed after the one before. */
  predicate IsPath(p: seq<OrderState>)
  {
    |p| > 0 && forall i :: 0 <= i < |p| - 1 ==> CanTransitionTo(p[i], p[i + 1])
  }

  /** Along a path the rank grows by exactly one per step. */
  lemma {:induction false} PathRankGrows(p: seq<OrderState>)
    requires IsPath(p)
    ensures Rank(p[0]) + |p| - 1 == Rank(p[|p| - 1])
    decreases |p|
  {
    if |p| > 1 {
      var q := p[..|p| - 1];
      assert IsPath(q) by {
        forall i | 0 <= i < |q| - 1 ensures CanTransitionTo(q[i], q[i + 1]) {
          assert q[i] == p[i] && q[i + 1] == p[i + 1];
        }
      }
      PathRankGrows(q);
      TransitionsMoveForward(p[|p| - 2], p[|p| - 1]);
    }
  }

  /** The graph has no cycles: no state occurs twice on a path. */
  lemma PathsVisitEachStateOnce(p: seq<OrderState>)
    requires IsPath(p)
    ensures forall i, j :: 0 <= i < j < |p| ==> p[i] != p[j]
  {
    forall i, j | 0 <= i < j < |p| ensures p[i] != p[j] {
      var q := p[i..j + 1];
      assert IsPath(q) by {
        forall k | 0 <= k < |q| - 1 ensures CanTransitionTo(q[k], q[k + 1]) {
          assert q[k] == p[i + k] && q[k + 1] == p[i + k + 1];
        }
      }
      PathRankGrows(q);
    }
  }

  /** Every path from ORDER_PLACED takes as many steps as the rank of its last state, so at
      most five; one that cannot be extended ends either DECLINED after two steps or PICKED_UP
      after five. */
  lemma PathsFromPlacedEndTerminal(p: seq<OrderState>)
    requires IsPath(p) && p[0] == OrderPlaced
    ensures |p| - 1 == Rank(p[|p| - 1]) <= 5
    ensures AllowedNextStates(p[|p| - 1]) == [] ==>
      (p[|p| - 1] == OrderDeclined && |p| - 1 == 2) || (p[|p| - 1] == OrderPickedUp && |p| - 1 == 5)
  {
    PathRankGrows(p);
  }

  /** The state each state is entered from. */
  function Predecessor(s: OrderState): (r: OrderState)
    requires s != OrderPlaced
    ensures CanTransitionTo(r, s) && Rank(r) + 1 == Rank(s)
  {
    match s
    case VendorNotified => OrderPlaced
    case OrderAccepted => VendorNotified
    case OrderDeclined => VendorNotified
    case OrderPreparation => OrderAccepted
    case OrderReady => OrderPreparation
    case OrderPickedUp => OrderReady
  }

  /** A path from ORDER_PLACED to each state: every state is reachable. */
  function PathTo(s: OrderState): (p: seq<OrderState>)
    ensures IsPath(p) && p[0] == OrderPlaced && p[|p| - 1] == s
    ensures |p| - 1 == Rank(s)
    decreases Rank(s)
  {
    if s == OrderPlaced then [OrderPlaced]
    else
      var q := PathTo(Predecessor(s));
      assert forall i :: 0 <= i < |q| ==> (q + [s])[i] == q[i];
      q + [s]
  }

  /** The longest path has exactly five steps. */
  lemma LongestPathHasFiveSteps()
    ensures exists p :: IsPath(p) && p[0] == OrderPlaced && |p| - 1 == 5
  {
    var p := PathTo(OrderPickedUp);
    assert IsPath(p) && p[0] == OrderPlaced && |p| - 1 == 5;
  }

  /** The input of the order workflow. */
  datatype OrderWorkflowInput = OrderWorkflowInput(orderId: string, expirationTime: int)

  /** Seconds until an order expires when the caller does not say. */
  const DefaultExpirationTime: int := 60

  /** An input built from an order id alone takes the default expiration time. */
  function NewOrderWorkflowInput(orderId: string): (arg: OrderWorkflowInput)
    ensures arg.orderId == orderId && arg.expirationTime == 60
  {
    OrderWorkflowInput(orderId, DefaultExpirationTime)
  }

  /** The order record fetched at the start of the workflow (its date is not modelled). */
  datatype OrderDetails = OrderDetails(orderId: string, userId: string, vendorId: string)
}
