/**
 * The dashboard component of src/App.tsx as an object: the `subscriptions`
 * list, the two totals derived from it and whether the new-subscription form
 * is open.
 *
 * Every handler replaces the list and then re-runs `calculateTotals`, as the
 * component's effect on `subscriptions` does, so the object invariant is that
 * the totals always equal `SpendOf` of the current list. The outcome of each
 * backend call is a parameter: the handlers only ever see success or failure.
 */
module AppComponent {
  import opened Wrappers
  import opened Types
  import opened SubscriptionList

  class App {
    var subscriptions: seq<Subscription>
    var totalMonthly: real
    var totalYearly: real
    var isFormOpen: bool

    /** The totals shown are those of the list held. */
    ghost predicate Valid()
      reads this
    {
      Spend(totalMonthly, totalYearly) == SpendOf(subscriptions)
    }

    constructor ()
      ensures Valid()
      ensures subscriptions == [] && totalMonthly == 0.0 && totalYearly == 0.0 && !isFormOpen
    {
      subscriptions := [];
      totalMonthly, totalYearly := 0.0, 0.0;
      isFormOpen := false;
    }

    /** `calculateTotals`: one pass over the list, accumulating both totals. */
    method CalculateTotals()
      modifies this`totalMonthly, this`totalYearly
      ensures Valid()
      ensures totalMonthly == SpendOf(subscriptions).monthly && totalYearly == SpendOf(subscriptions).yearly
    {
      var monthly, yearly := 0.0, 0.0;
      var i := 0;
      while i < |subscriptions|
        invariant 0 <= i <= |subscriptions|
        invariant Spend(monthly, yearly) == SpendOf(subscriptions[..i])
      {
        var sub := subscriptions[i];
        if sub.billingCycle == Monthly {
          monthly := monthly + sub.price;
          yearly := yearly + sub.price * 12.0;
        } else {
          yearly := yearly + sub.price;
          monthly := monthly + sub.price / 12.0;
        }
        assert subscriptions[..i + 1][..i] == subscriptions[..i];
        i := i + 1;
      }
      assert subscriptions[..i] == subscriptions;
      totalMonthly, totalYearly := monthly, yearly;
    }

    /** `fetchSubscriptions`: on success the fetched rows replace the list; on error nothing changes. */
    method HandleFetched(fetched: Option<seq<Subscription>>)
      requires Valid()
      modifies this
      ensures Valid()
      ensures subscriptions == if fetched.Some? then fetched.value else old(subscriptions)
      ensures isFormOpen == old(isFormOpen)
    {
      if fetched.None? {
        return;
      }
      subscriptions := fetched.value;
      CalculateTotals();
    }

    /**
     * `handleDelete`: only once the backend reports the row deleted, every item
     * with that id leaves the list and every other item stays, in order.
     */
    method HandleDelete(id: string, deleted: bool)
      requires Valid()
      modifies this
      ensures Valid()
      ensures subscriptions == if deleted then WithoutId(old(subscriptions), id) else old(subscriptions)
      ensures isFormOpen == old(isFormOpen)
    {
      if !deleted {
        return;
      }
      subscriptions := WithoutId(subscriptions, id);
      CalculateTotals();
    }

    /** `handleSubscriptionAdded`: the new record goes at the end and the form closes. */
    method HandleSubscriptionAdded(subscription: Subscription)
      requires Valid()
      modifies this
      ensures Valid()
      ensures subscriptions == old(subscriptions) + [subscription]
      ensures subscriptions[..|old(subscriptions)|] == old(subscriptions)
      ensures !isFormOpen
    {
      subscriptions := subscriptions + [subscription];
      isFormOpen := false;
      CalculateTotals();
    }

    /** `handleSubscriptionUpdated`: every item with the record's id becomes the record. */
    method HandleSubscriptionUpdated(updated: Subscription)
      requires Valid()
      modifies this
      ensures Valid()
      ensures subscriptions == ReplaceById(old(subscriptions), updated)
      ensures |subscriptions| == |old(subscriptions)|
      ensures isFormOpen == old(isFormOpen)
    {
      subscriptions := ReplaceById(subscriptions, updated);
      CalculateTotals();
    }

    /** The "new" button opens the form. */
    method OpenForm()
      modifies this`isFormOpen
      ensures isFormOpen
    {
      isFormOpen := true;
    }

    /** The form's `onClose` callback. */
    method CloseForm()
      modifies this`isFormOpen
      ensures !isFormOpen
    {
      isFormOpen := false;
    }
  }
}
