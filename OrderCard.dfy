/**
 * An order in the account page's history: whether it can still be
 * cancelled, how the five-step tracker and its connectors are drawn, the
 * badge icon, and the two-step cancel confirmation.
 */
module OrderCard {
  import opened Options
  import opened Auth
  import opened Orders

  /** Cancellation is offered while the order is placed or confirmed. */
  predicate CanCancel(s: Status) {
    s == OrderPlaced || s == Confirmed
  }

  /** The cancellable statuses are exactly the first two delivery steps. */
  lemma CanCancelIffEarly(s: Status)
    ensures CanCancel(s) <==> 0 <= StepIndex(s) <= 1
  {
  }

  /** Once an order is shown past the cancellable steps it is never offered for cancellation again. */
  lemma CancelWindowCloses(o: Order, t1: int, t2: int)
    requires t1 <= t2 && !CanCancel(WithStatus(o, t1).status)
    ensures !CanCancel(WithStatus(o, t2).status)
  {
    WithStatusLater(o, t1, t2);
  }

  datatype StepState = Done | Current | Future

  /** A step is current at the current index, done before it, and in the future after it. */
  function StepStateOf(idx: int, currentIdx: int): (st: StepState)
    ensures st == Current <==> idx == currentIdx
    ensures st == Done <==> idx < currentIdx
    ensures st == Future <==> idx > currentIdx
  {
    var isDone := idx <= currentIdx;
    var isCurrent := idx == currentIdx;
    if isCurrent then Current else if isDone then Done else Future
  }

  /** The tracker's five circles for an order in status `s`. */
  function Tracker(s: Status): (r: seq<StepState>)
    ensures |r| == |OrderSteps|
    ensures forall i :: 0 <= i < |r| ==> r[i] == StepStateOf(i, StepIndex(s))
  {
    seq(|OrderSteps|, i => StepStateOf(i, StepIndex(s)))
  }

  /**
   * For a delivery step the tracker shows every earlier step done, that
   * step alone current, and every later step still to come.
   */
  lemma TrackerShape(s: Status)
    requires s != Cancelled
    ensures var r := Tracker(s);
            r[StepIndex(s)] == Current &&
            (forall i :: 0 <= i < |r| && i != StepIndex(s) ==> r[i] != Current) &&
            r == seq(StepIndex(s), _ => Done) + [Current] + seq(|OrderSteps| - 1 - StepIndex(s), _ => Future)
  {
    var r := Tracker(s);
    var c := StepIndex(s);
    var expected := seq(c, _ => Done) + [Current] + seq(|OrderSteps| - 1 - c, _ => Future);
    assert |expected| == |r|;
    forall i | 0 <= i < |r| ensures r[i] == expected[i] {
      if i < c {
        assert expected[i] == Done;
      } else if i == c {
        assert expected[i] == Current;
      } else {
        assert expected[i] == seq(|OrderSteps| - 1 - c, _ => Future)[i - c - 1];
      }
    }
  }

  /** The connectors, one after every step but the last: drawn done when they lead away from a done step. */
  function Connectors(s: Status): (r: seq<bool>)
    ensures |r| == |OrderSteps| - 1
    ensures forall i :: 0 <= i < |r| ==> (r[i] <==> i < StepIndex(s))
  {
    seq(|OrderSteps| - 1, i => i < StepIndex(s))
  }

  /** A connector is done exactly when both steps it joins are done or current. */
  lemma ConnectorJoinsReachedSteps(s: Status, i: nat)
    requires i < |OrderSteps| - 1
    ensures Connectors(s)[i] <==> Tracker(s)[i] == Done && Tracker(s)[i + 1] != Future
  {
  }

  /** What the status badge draws: the icon of a tracker step, or the cancel cross. */
  datatype Badge = StepIcon(step: nat) | CancelIcon

  /**
   * The badge icon: the cross for a cancelled order, otherwise the icon of
   * the current step (the first step's when the status is not a step).
   */
  function BadgeIcon(s: Status): (b: Badge)
    ensures b.CancelIcon? <==> s == Cancelled
    ensures b.StepIcon? ==> b.step < |OrderSteps| && OrderSteps[b.step] == s
  {
    if s == Cancelled then CancelIcon
    else
      var idx := StepIndex(s);
      StepIcon(if idx >= 0 then idx else 0)
  }

  /** A cancelled order shows the cancelled banner in place of the tracker. */
  predicate ShowsBanner(s: Status) {
    s == Cancelled
  }

  /**
   * The expanded card shows either the banner or the tracker: the banner
   * exactly for the status that is no delivery step, which is also when the
   * badge draws the cross and never while cancellation is offered; without
   * the banner the tracker marks the status's step as current.
   */
  lemma BannerOrTracker(s: Status)
    ensures ShowsBanner(s) <==> StepIndex(s) == -1
    ensures ShowsBanner(s) <==> BadgeIcon(s).CancelIcon?
    ensures ShowsBanner(s) ==> !CanCancel(s)
    ensures !ShowsBanner(s) ==> Tracker(s)[StepIndex(s)] == Current
  {
  }

  /** The card's own state: whether its details are open, and whether the cancel question is being asked. */
  class OrderCardView {
    var expanded: bool
    var confirming: bool

    constructor ()
      ensures !expanded && !confirming
    {
      expanded := false;
      confirming := false;
    }

    /** Clicking the header opens or closes the details. */
    method Toggle()
      modifies this
      ensures expanded == !old(expanded) && confirming == old(confirming)
    {
      expanded := !expanded;
    }

    /**
     * "Cancel Order", shown only in the open details of a cancellable order
     * while no question is pending: it only asks, it does not cancel.
     */
    method AskCancel(s: Status)
      requires expanded && CanCancel(s) && !confirming
      modifies this
      ensures expanded && confirming
    {
      confirming := true;
    }

    /** "No, Keep It": withdraws the question and leaves the order alone. */
    method KeepOrder()
      requires confirming
      modifies this
      ensures !confirming && expanded == old(expanded)
    {
      confirming := false;
    }

    /**
     * "Yes, Cancel Order": the only control that cancels. The order is
     * cancelled in the store, the question closes and the details stay open
     * to show the cancelled banner.
     */
    method ConfirmCancel(store: OrderStore, session: Option<Session>, o: Order, now: int)
      requires confirming
      modifies this, store
      ensures session.None? ==> store.allOrders == old(store.allOrders)
      ensures session.Some? ==> store.allOrders == CancelledIn(old(store.allOrders), session.value.id, o.id, now)
      ensures !confirming && expanded
    {
      store.CancelOrder(session, o.id, now);
      confirming := false;
      expanded := true;
    }
  }
}
