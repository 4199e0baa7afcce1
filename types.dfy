/**
 * The one entity of the tracker, as the list held by the dashboard stores it
 * (src/types/subscription.ts). Prices are exact reals; `billingCycle` is kept as
 * the raw text the backend returns, so that code treating "anything but monthly"
 * alike can be modelled as written.
 */
module Types {
  import opened Wrappers

  datatype Subscription = Subscription(
    id: string,
    userId: string,
    serviceName: string,
    price: real,
    billingCycle: string,
    nextBillingDate: string,
    category: string,
    serviceUrl: Option<string>,
    notes: Option<string>,
    createdAt: string,
    updatedAt: string)

  const Monthly: string := "monthly"
  const Yearly: string := "yearly"
}
