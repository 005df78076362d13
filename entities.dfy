/**
 * The Campaign and Customer records (backend/models/Campaign.js and
 * backend/models/Customer.js), reduced to the fields the referral ledger
 * reads or writes. Document ids (Mongo ObjectIds) are naturals; dates are
 * naturals supplied by the caller.
 */
module Entities {
  import opened Wrappers

  type CampaignId = nat
  type CustomerId = nat
  type ConversionId = nat
  type Timestamp = nat

  /** A business is known by its user account: campaigns and customers store it
      as `businessId`, and an authenticated request carries it as the user id. */
  type BusinessId = nat

  datatype TaskType = Review | Purchase | Form | OtherTask

  datatype RewardType = Discount | Cashback | Gift | OtherReward

  /** The campaign fields the ledger uses: the owner, its task and reward terms
      shown on the landing page, and the two running counters. `rewardValue` is
      a JavaScript Number in the source; here it is an integer. */
  datatype Campaign = Campaign(
    businessId: BusinessId,
    name: string,
    taskType: TaskType,
    taskDescription: string,
    rewardType: RewardType,
    rewardValue: int,
    totalReferrals: nat,
    totalRewardsGiven: nat)

  datatype CustomerSource = FromZapier | FromManual | FromReferral

  datatype CustomerStatus = CustomerActive | CustomerInactive | CustomerPending

  datatype Customer = Customer(
    businessId: BusinessId,
    email: string,
    name: Option<string>,
    source: CustomerSource,
    status: CustomerStatus)

  /** The compound unique index on (businessId, email) of the customer collection. */
  predicate CustomersUnique(customers: map<CustomerId, Customer>)
  {
    forall a, b :: a in customers && b in customers && a != b ==>
      customers[a].businessId != customers[b].businessId || customers[a].email != customers[b].email
  }

  /** True when some stored customer already holds this (businessId, email) pair,
      so that saving another one would violate the unique index. */
  predicate EmailTaken(customers: map<CustomerId, Customer>, businessId: BusinessId, email: string)
  {
    exists id :: id in customers && customers[id].businessId == businessId && customers[id].email == email
  }

  /** Adding a customer whose (businessId, email) pair is not taken keeps the index unique. */
  lemma AddCustomerKeepsUnique(customers: map<CustomerId, Customer>, id: CustomerId, c: Customer)
    requires CustomersUnique(customers)
    requires id !in customers
    requires !EmailTaken(customers, c.businessId, c.email)
    ensures CustomersUnique(customers[id := c])
  {
    var m := customers[id := c];
    forall a, b | a in m && b in m && a != b
      ensures m[a].businessId != m[b].businessId || m[a].email != m[b].email
    {
      if a == id {
        assert b in customers && m[b] == customers[b];
      } else if b == id {
        assert a in customers && m[a] == customers[a];
      }
    }
  }
}
