/** The records the dashboard shows, reduced to the fields its logic reads or writes
    (types/user.ts, types/order.ts; reviews and billing plans as the pages use them). */
module Entities {
  import opened Common

  /** A client account. `extra` stands for every field the dashboard only passes through. */
  datatype User = User(
    id: int,
    name: string,
    authorized: Option<bool>,
    disable: Option<bool>,
    test: Option<bool>,
    countMessagesSent: Option<int>,
    limitMessagesPerDay: Option<int>,
    extra: string)

  datatype Order = Order(
    id: int,
    code: int,
    stateStatus: string,
    isSended: Option<bool>,
    reviewId: Option<int>)

  datatype Review = Review(id: int, orderCode: string, rating: real)

  datatype BillingPlan = BillingPlan(id: int, name: string)

  function UserId(u: User): int { u.id }

  function BillingPlanId(p: BillingPlan): int { p.id }
}
