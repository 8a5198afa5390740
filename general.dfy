/** The general slice of the Redux store (src/features/general/generalSlice.js): the site
    details, the reviews, the subscription request and the shared flags and message. */
module GeneralSlice {

  import opened Common

  const SubscriptionDefault: string := "Subscription successful"

  datatype GeneralState = GeneralState(
    sitedetails: Record,
    reviews: seq<Record>,
    isError: bool,
    isLoading: bool,
    subscriptionLoading: bool,
    isSuccess: bool,
    message: string)

  /** `reset` and the pending, fulfilled and rejected cases of `getSitedetails`, `getReviews`
      and `subscribe`; a fulfilled case carries `payload.data` (or `payload.message`), a rejected
      case the message the thunk rejected with. */
  datatype Action =
    | Reset
    | SitedetailsPending
    | SitedetailsFulfilled(details: Record)
    | SitedetailsRejected(detailsError: string)
    | ReviewsPending
    | ReviewsFulfilled(list: seq<Record>)
    | ReviewsRejected(reviewsError: string)
    | SubscribePending
    | SubscribeFulfilled(payloadMessage: Option<string>)
    | SubscribeRejected(subscribeError: string)

  function InitialState(): (s: GeneralState)
    ensures s.sitedetails == map[] && s.reviews == [] && s.message == ""
    ensures !s.isError && !s.isLoading && !s.subscriptionLoading && !s.isSuccess
  {
    GeneralState(map[], [], false, false, false, false, "")
  }

  /** The state after one reducer case. Only the matching fulfilled case writes the site details
      or the reviews, the subscription cases never touch `isLoading`, the other thunks never
      touch `subscriptionLoading`, and only `reset` and the three rejected cases change
      `isError`, each rejected case setting it. */
  function Reduce(s: GeneralState, a: Action): (r: GeneralState)
    ensures r.sitedetails != s.sitedetails ==> a.SitedetailsFulfilled?
    ensures r.reviews != s.reviews ==> a.ReviewsFulfilled?
    ensures a.SubscribePending? || a.SubscribeFulfilled? || a.SubscribeRejected? ==> r.isLoading == s.isLoading
    ensures r.subscriptionLoading != s.subscriptionLoading ==>
              a.Reset? || a.SubscribePending? || a.SubscribeFulfilled? || a.SubscribeRejected?
    ensures r.isError != s.isError ==>
              a.Reset? || a.SitedetailsRejected? || a.ReviewsRejected? || a.SubscribeRejected?
    ensures a.SitedetailsRejected? || a.ReviewsRejected? || a.SubscribeRejected? ==> r.isError
  {
    match a
    case Reset =>
      s.(isLoading := false, isError := false, isSuccess := false, subscriptionLoading := false, message := "")
    case SitedetailsPending => s.(isLoading := true)
    case SitedetailsFulfilled(d) => s.(isLoading := false, isSuccess := true, sitedetails := d)
    case SitedetailsRejected(msg) => s.(isLoading := false, isError := true, message := msg)
    case ReviewsPending => s.(isLoading := true)
    case ReviewsFulfilled(list) => s.(isLoading := false, isSuccess := true, reviews := list)
    case ReviewsRejected(msg) => s.(isLoading := false, isError := true, message := msg)
    case SubscribePending => s.(subscriptionLoading := true)
    case SubscribeFulfilled(m) =>
      s.(subscriptionLoading := false, isSuccess := true,
         message := if Truthy(m) then m.value else SubscriptionDefault)
    case SubscribeRejected(msg) => s.(subscriptionLoading := false, isError := true, message := msg)
  }

  /** `reset` clears the flags and the message and keeps the loaded data. */
  lemma ResetKeepsData(s: GeneralState)
    ensures var r := Reduce(s, Reset);
            !r.isLoading && !r.isError && !r.isSuccess && !r.subscriptionLoading && r.message == "" &&
            r.sitedetails == s.sitedetails && r.reviews == s.reviews
  {
  }

  /** The subscription message is the server's when it sent a non-empty one, and the default
      text otherwise. */
  lemma SubscribeMessage(s: GeneralState, m: Option<string>)
    ensures var r := Reduce(s, SubscribeFulfilled(m));
            (Truthy(m) ==> r.message == m.value) && (!Truthy(m) ==> r.message == SubscriptionDefault) &&
            r.isSuccess && !r.subscriptionLoading && r.isLoading == s.isLoading
  {
  }

  /** Each rejected case reports its error and clears only its own loading flag. */
  lemma RejectedCases(s: GeneralState, msg: string)
    ensures var r := Reduce(s, SitedetailsRejected(msg));
            r.isError && r.message == msg && !r.isLoading && r.subscriptionLoading == s.subscriptionLoading
    ensures var r := Reduce(s, ReviewsRejected(msg));
            r.isError && r.message == msg && !r.isLoading && r.subscriptionLoading == s.subscriptionLoading
    ensures var r := Reduce(s, SubscribeRejected(msg));
            r.isError && r.message == msg && !r.subscriptionLoading && r.isLoading == s.isLoading
  {
  }

  /** The slice as the store holds it. */
  class GeneralStore {
    var sitedetails: Record
    var reviews: seq<Record>
    var isError: bool
    var isLoading: bool
    var subscriptionLoading: bool
    var isSuccess: bool
    var message: string

    function State(): GeneralState
      reads this
    {
      GeneralState(sitedetails, reviews, isError, isLoading, subscriptionLoading, isSuccess, message)
    }

    constructor ()
      ensures State() == InitialState()
    {
      sitedetails := map[];
      reviews := [];
      isError, isLoading, subscriptionLoading, isSuccess := false, false, false, false;
      message := "";
    }

    /** `store.dispatch(action)` for this slice. */
    method Dispatch(a: Action)
      modifies this
      ensures State() == Reduce(old(State()), a)
    {
      match a {
        case Reset =>
          isLoading, isError, isSuccess, subscriptionLoading := false, false, false, false;
          message := "";
        case SitedetailsPending =>
          isLoading := true;
        case SitedetailsFulfilled(d) =>
          isLoading, isSuccess := false, true;
          sitedetails := d;
        case SitedetailsRejected(msg) =>
          isLoading, isError := false, true;
          message := msg;
        case ReviewsPending =>
          isLoading := true;
        case ReviewsFulfilled(list) =>
          isLoading, isSuccess := false, true;
          reviews := list;
        case ReviewsRejected(msg) =>
          isLoading, isError := false, true;
          message := msg;
        case SubscribePending =>
          subscriptionLoading := true;
        case SubscribeFulfilled(m) =>
          subscriptionLoading, isSuccess := false, true;
          message := if Truthy(m) then m.value else SubscriptionDefault;
        case SubscribeRejected(msg) =>
          subscriptionLoading, isError := false, true;
          message := msg;
      }
    }
  }
}
