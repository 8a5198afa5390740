/** The listing card (src/components/CardListing.jsx): its countdown, its image carousel, the
    watchlist heart, and the bid button and modal. The rules shared with the smaller card of
    src/components/Cards1.jsx are defined here once. */
module CardListing {

  import opened Common
  import Countdown
  import Carousel

  // ---------------------------------------------------------------------------------------
  // Watchlist heart

  datatype Colour = Red | Grey

  /** `listing.watchlist ? 'red' : 'grey'`. */
  function InitialHeart(watchlist: bool): (c: Colour)
    ensures c == Red <==> watchlist
  {
    if watchlist then Red else Grey
  }

  /** The settled `addListingToWatchlist` call: `payload.status`, `payload.message` and
      `payload.data.guestuser_id`. */
  datatype WatchlistResponse = WatchlistResponse(status: Option<string>, message: string, guestId: Option<string>)

  const Success: string := "success"
  const AddedWord: string := "added"
  const WatchlistPath: string := "/watchlist"

  predicate Succeeded(r: WatchlistResponse)
  {
    r.status == Some(Success)
  }

  /** The heart after a response: on success red exactly when the message says `added`,
      otherwise unchanged. */
  function HeartAfter(current: Colour, r: WatchlistResponse): (c: Colour)
    ensures Succeeded(r) ==> (c == Red <==> Contains(r.message, AddedWord))
    ensures !Succeeded(r) ==> c == current
  {
    if Succeeded(r) then (if Contains(r.message, AddedWord) then Red else Grey) else current
  }

  /** The guest id handed to `updateGuestUser`, when the successful response carries one. */
  function GuestToStore(r: WatchlistResponse): (g: Option<string>)
    ensures g.Some? <==> Succeeded(r) && Truthy(r.guestId)
    ensures g.Some? ==> g == r.guestId
  {
    if Succeeded(r) && Truthy(r.guestId) then r.guestId else None
  }

  /** Whether the card asks the listings slice to drop it: a successful call made while the
      page's path contains `/watchlist`. */
  predicate RemovesFromWatchlist(r: WatchlistResponse, pathname: string)
  {
    Succeeded(r) && Contains(pathname, WatchlistPath)
  }

  /** The heart after a series of responses, in order. */
  function HeartAfterAll(initial: Colour, rs: seq<WatchlistResponse>): Colour
  {
    if rs == [] then initial else HeartAfter(HeartAfterAll(initial, rs[..|rs| - 1]), rs[|rs| - 1])
  }

  /** Responses that did not succeed leave the heart as the listing's own flag set it. */
  lemma {:induction false} FailuresKeepHeart(initial: Colour, rs: seq<WatchlistResponse>)
    requires forall i :: 0 <= i < |rs| ==> !Succeeded(rs[i])
    ensures HeartAfterAll(initial, rs) == initial
  {
    if rs != [] {
      FailuresKeepHeart(initial, rs[..|rs| - 1]);
    }
  }

  /** The heart reflects the last successful response `rs[i]`: red exactly when its message
      says `added`. */
  lemma {:induction false} HeartFollowsLastSuccess(initial: Colour, rs: seq<WatchlistResponse>, i: int)
    requires 0 <= i < |rs| && Succeeded(rs[i])
    requires forall j :: i < j < |rs| ==> !Succeeded(rs[j])
    ensures HeartAfterAll(initial, rs) == Red <==> Contains(rs[i].message, AddedWord)
  {
    if i < |rs| - 1 {
      var front := rs[..|rs| - 1];
      assert front[i] == rs[i];
      HeartFollowsLastSuccess(initial, front, i);
    }
  }

  // ---------------------------------------------------------------------------------------
  // Bid button

  /** `isDisabled={currentUserId === listing.auctioneer.id || !listing.active}`. */
  function BidButtonDisabled(userId: Option<string>, auctioneerId: string, active: bool): (disabled: bool)
    ensures disabled <==> userId == Some(auctioneerId) || !active
  {
    userId == Some(auctioneerId) || !active
  }

  datatype BidClick = OpenBidModal | GoToLogin

  /** `currentUserAccess ? onOpen : () => navigate('/login')`. */
  function OnBidClick(access: Option<string>): (c: BidClick)
    ensures c == OpenBidModal <==> Truthy(access)
  {
    if Truthy(access) then OpenBidModal else GoToLogin
  }

  /** A signed-out visitor can press the button on an active listing, and is sent to log in. */
  lemma SignedOutGoesToLogin(auctioneerId: string, active: bool)
    ensures active ==> !BidButtonDisabled(None, auctioneerId, active)
    ensures OnBidClick(None) == GoToLogin
  {
  }

  // ---------------------------------------------------------------------------------------
  // The card's state

  /** The component's `useState` hooks. `amount` is the number read from the bid field
      (`None` when the field is empty). */
  class Card {
    const active: bool
    const images: seq<string>
    var heart: Colour
    var amount: Option<int>
    var loading: bool
    var highestBid: Option<int>
    var countdown: string
    var imageIndex: int
    var modalOpen: bool
    var ticking: bool

    /** The state once the effect for `listing` has run. */
    constructor (listingActive: bool, listingImages: seq<string>, watchlist: bool)
      ensures active == listingActive && images == listingImages
      ensures heart == InitialHeart(watchlist)
      ensures amount.None? && !loading && highestBid.None? && countdown == "" && imageIndex == 0
      ensures !modalOpen && ticking
    {
      active := listingActive;
      images := listingImages;
      heart := InitialHeart(watchlist);
      amount := None;
      loading := false;
      highestBid := None;
      countdown := "";
      imageIndex := 0;
      modalOpen := false;
      ticking := true;
    }

    /** The highest bid shown in the modal: the card's own last bid, else the listing's. */
    function ShownHighestBid(listingHighest: Option<int>): (b: Option<int>)
      reads this
      ensures TruthyInt(highestBid) ==> b == highestBid
      ensures !TruthyInt(highestBid) ==> b == listingHighest
    {
      OrInt(highestBid, listingHighest)
    }

    method Tick(diff: int)
      requires ticking
      modifies this`countdown, this`ticking
      ensures countdown == Countdown.Format(active, diff)
      ensures ticking == (active && diff > 0)
      ensures countdown == Countdown.Closed <==> !ticking
    {
      Countdown.FormatClosedIff(active, diff);
      if !active || diff <= 0 {
        ticking := false;
        countdown := Countdown.Closed;
      } else {
        countdown := Countdown.Format(active, diff);
      }
    }

    /** The arrows, which are shown only for more than one image. */
    method HandlePrevImage()
      requires |images| > 1
      modifies this`imageIndex
      ensures imageIndex == Carousel.Prev(old(imageIndex), |images|)
      ensures 0 <= old(imageIndex) < |images| ==> 0 <= imageIndex < |images|
    {
      imageIndex := if imageIndex == 0 then |images| - 1 else imageIndex - 1;
    }

    method HandleNextImage()
      requires |images| > 1
      modifies this`imageIndex
      ensures imageIndex == Carousel.Next(old(imageIndex), |images|)
      ensures 0 <= old(imageIndex) < |images| ==> 0 <= imageIndex < |images|
    {
      imageIndex := if imageIndex == |images| - 1 then 0 else imageIndex + 1;
    }

    /** `handleWatchlist` once the call has settled: the heart is updated, and the guest id to
        store and whether to drop the card from the watchlist are returned. */
    method HandleWatchlist(r: WatchlistResponse, pathname: string) returns (guest: Option<string>, remove: bool)
      modifies this`heart
      ensures heart == HeartAfter(old(heart), r)
      ensures guest == GuestToStore(r)
      ensures remove <==> RemovesFromWatchlist(r, pathname)
    {
      guest := GuestToStore(r);
      remove := Succeeded(r) && Contains(pathname, WatchlistPath);
      if Succeeded(r) {
        heart := if Contains(r.message, AddedWord) then Red else Grey;
      }
    }

    method HandleBidClick(access: Option<string>) returns (c: BidClick)
      modifies this`modalOpen
      ensures c == OnBidClick(access)
      ensures modalOpen == (c == OpenBidModal || old(modalOpen))
    {
      c := if Truthy(access) then OpenBidModal else GoToLogin;
      if c == OpenBidModal {
        modalOpen := true;
      }
    }

    /** `submitHandler` once `placeBid` has settled: on success the amount sent becomes the
        highest bid, the field is cleared and the modal closes; on failure they are kept. */
    method SubmitBid(success: bool)
      modifies this`loading, this`highestBid, this`amount, this`modalOpen
      ensures !loading
      ensures success ==> highestBid == old(amount) && amount.None? && !modalOpen
      ensures !success ==> highestBid == old(highestBid) && amount == old(amount) && modalOpen == old(modalOpen)
    {
      var sent := amount;
      loading := false;
      if success {
        highestBid := sent;
        amount := None;
        modalOpen := false;
      }
    }
  }
}
