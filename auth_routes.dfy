/**
 * The referral branch of `POST /signup` in backend/routes/auth.js. After the
 * user account is saved (password hashing, the user record and the JWT are
 * not part of this model), a truthy referral code naming an existing referral
 * whose campaign exists makes the new person a customer of that campaign's
 * business and appends a conversion that is already `completed`.
 */
module AuthRoutes {
  import opened Wrappers
  import opened Entities
  import opened ReferralModel
  import opened LedgerQueries
  import opened ReferralRoutes

  /** The customer a referred signup creates. */
  function ReferredCustomer(businessId: BusinessId, email: string, name: string): Customer
  {
    Customer(businessId, email, Some(name), FromReferral, CustomerActive)
  }

  /**
   * `newCustomerId` and `conversionId` are the ObjectIds the database assigns
   * to the new customer and the new conversion. The result is the id of the
   * customer created, or nothing when the referral branch does not apply;
   * a failure is the server error raised when the (businessId, email) index
   * rejects the new customer.
   */
  method Signup(store: ReferralStore, referralCode: Option<string>, email: string, name: string,
                newCustomerId: CustomerId, conversionId: ConversionId, now: Timestamp)
    returns (res: Result<Option<CustomerId>, Error>)
    requires store.Valid()
    requires newCustomerId !in store.customers
    modifies store
    ensures store.Valid()
    ensures store.campaigns == old(store.campaigns)
    ensures LedgerEvolved(old(store.referrals), store.referrals)
    ensures res.Failure? || res == Success(None) ==> unchanged(store)
    ensures referralCode.None? || referralCode.value == "" ==> res == Success(None)
    ensures referralCode.Some? && referralCode.value != "" && FindByCode(old(store.referrals), referralCode.value).None? ==>
      res == Success(None)
    ensures referralCode.Some? && referralCode.value != "" && FindByCode(old(store.referrals), referralCode.value).Some? ==>
      var i := FindByCode(old(store.referrals), referralCode.value).value;
      var r := old(store.referrals)[i];
      && (r.campaignId !in store.campaigns ==> res == Success(None))
      && (r.campaignId in store.campaigns ==>
            var businessId := store.campaigns[r.campaignId].businessId;
            && (EmailTaken(old(store.customers), businessId, email) ==> res == Failure(ServerError))
            && (!EmailTaken(old(store.customers), businessId, email) ==>
                  && res == Success(Some(newCustomerId))
                  && store.customers == old(store.customers)[newCustomerId := ReferredCustomer(businessId, email, name)]
                  && store.referrals == old(store.referrals)[i := Recomputed(r.(conversions := r.conversions + [NewConversion(conversionId, newCustomerId, now, Completed)]))]
                  && store.referrals[i].conversions[..|r.conversions|] == r.conversions
                  && store.referrals[i].totalConversions == r.totalConversions + 1))
  {
    LedgerEvolvedReflexive(store.referrals);
    if referralCode.None? || referralCode.value == "" {
      return Success(None);
    }
    var found := FindByCode(store.referrals, referralCode.value);
    if found.None? {
      return Success(None);
    }
    var i := found.value;
    var doc := store.referrals[i];
    assert doc == old(store.referrals)[FindByCode(old(store.referrals), referralCode.value).value];
    if doc.campaignId !in store.campaigns {
      return Success(None);
    }
    var businessId := store.campaigns[doc.campaignId].businessId;
    if EmailTaken(store.customers, businessId, email) {
      // `customer.save()` violates the unique index and the handler answers 500.
      return Failure(ServerError);
    }
    var customer := ReferredCustomer(businessId, email, name);
    AddCustomerKeepsUnique(store.customers, newCustomerId, customer);
    store.customers := store.customers[newCustomerId := customer];
    store.AppendConversion(i, NewConversion(conversionId, newCustomerId, now, Completed));
    res := Success(Some(newCustomerId));
  }
}
