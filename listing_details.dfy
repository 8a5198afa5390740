/** The listing page (src/pages/general/ListingDetails.jsx): the countdown, the image carousel,
    the bid form with its validation, and the autobid modal. Amounts are the numbers
    `parseFloat` reads from the text fields; `None` is NaN, which is also what an empty field
    gives. */
module ListingDetails {

  import opened Common
  import Countdown
  import Carousel

  // ---------------------------------------------------------------------------------------
  // Images

  /** The images shown: the `images` array when it is a non-empty array, otherwise
      `[image].filter(Boolean)`. */
  function Images(images: Option<seq<string>>, image: Option<string>): (r: seq<string>)
    ensures images.Some? && images.value != [] ==> r == images.value
    ensures (images.None? || images.value == []) ==> (r == [] <==> !Truthy(image))
    ensures (images.None? || images.value == []) && Truthy(image) ==> r == [image.value]
  {
    if images.Some? && images.value != [] then images.value
    else if Truthy(image) then [image.value] else []
  }

  /** `images?.length || 1`: the carousel has at least one position. */
  function ImageCount(images: seq<string>): (n: nat)
    ensures n >= 1
    ensures images != [] ==> n == |images|
  {
    if |images| == 0 then 1 else |images|
  }

  // ---------------------------------------------------------------------------------------
  // Bids

  /** `highestBid ? highestBid + 1 : listing?.listing?.price`. */
  function MinBid(highestBid: Option<int>, price: Option<int>): (m: Option<int>)
    ensures TruthyInt(highestBid) ==> m == Some(highestBid.value + 1)
    ensures !TruthyInt(highestBid) ==> m == price
  {
    if TruthyInt(highestBid) then Some(highestBid.value + 1) else price
  }

  /** What `handlePlaceBid` does: send a signed-out user to the login page, refuse a form with
      neither amount, refuse an amount that does not exceed the minimum, or submit. */
  datatype BidDecision = GoToLogin | MissingAmount | TooLow(minimum: int) | Submit(amount: int)

  /** `parseFloat(bidData.autobid) || 0`. */
  function AutobidAmount(autobid: Option<int>): int
  {
    if TruthyInt(autobid) then autobid.value else 0
  }

  /** `bidAmount || autobidAmount`. */
  function AmountToSubmit(amount: Option<int>, autobid: Option<int>): (a: int)
    ensures TruthyInt(amount) ==> a == amount.value
    ensures !TruthyInt(amount) ==> a == AutobidAmount(autobid)
  {
    if TruthyInt(amount) then amount.value else AutobidAmount(autobid)
  }

  function PlaceBidDecision(signedIn: bool, amount: Option<int>, autobid: Option<int>,
                            highestBid: Option<int>, price: Option<int>): (d: BidDecision)
    ensures d == GoToLogin <==> !signedIn
    ensures d == MissingAmount <==> signedIn && !TruthyInt(amount) && !TruthyInt(autobid)
    ensures d.Submit? ==> d.amount != 0 && d.amount == AmountToSubmit(amount, autobid)
    ensures d.Submit? ==> var m := MinBid(highestBid, price); m.None? || d.amount > m.value
    ensures d.TooLow? ==> MinBid(highestBid, price) == Some(d.minimum) &&
                          AmountToSubmit(amount, autobid) <= d.minimum
  {
    if !signedIn then GoToLogin
    else if !TruthyInt(amount) && AutobidAmount(autobid) == 0 then MissingAmount
    else
      var toSubmit := AmountToSubmit(amount, autobid);
      var minBid := MinBid(highestBid, price);
      if minBid.Some? && toSubmit <= minBid.value then TooLow(minBid.value)
      else Submit(toSubmit)
  }

  /** A signed-in user with a non-zero amount gets the bid submitted exactly when it exceeds the
      minimum, which is the highest bid plus one, or the listing price before any bid. */
  lemma {:induction false} SubmitIffAboveMinimum(amount: int, autobid: Option<int>, highestBid: Option<int>,
                                                 price: Option<int>)
    requires amount != 0
    requires MinBid(highestBid, price).Some?
    ensures PlaceBidDecision(true, Some(amount), autobid, highestBid, price).Submit? <==>
            amount > MinBid(highestBid, price).value
    ensures PlaceBidDecision(true, Some(amount), autobid, highestBid, price).Submit? ==>
            PlaceBidDecision(true, Some(amount), autobid, highestBid, price).amount == amount
  {
    assert AmountToSubmit(Some(amount), autobid) == amount;
  }

  /** With an empty bid field the autobid threshold is what gets submitted. */
  lemma AutobidSubmittedWhenNoAmount(autobid: int, highestBid: Option<int>, price: Option<int>)
    requires autobid != 0
    ensures var d := PlaceBidDecision(true, None, Some(autobid), highestBid, price);
            d.Submit? ==> d.amount == autobid
  {
  }

  /** What `handleAutobidSubmit` does with the two modal fields. */
  datatype AutobidOutcome = InvalidThreshold | InvalidIncrement | Activated

  function AutobidDecision(threshold: Option<int>, increment: Option<int>): (o: AutobidOutcome)
    ensures o == Activated <==> threshold.Some? && threshold.value > 0 && increment.Some? && increment.value > 0
    ensures o == InvalidThreshold <==> !(threshold.Some? && threshold.value > 0)
  {
    if !TruthyInt(threshold) || threshold.value <= 0 then InvalidThreshold
    else if !TruthyInt(increment) || increment.value <= 0 then InvalidIncrement
    else Activated
  }

  /** `isAuctionActive`: the listing is active and the countdown does not read `Closed`. */
  predicate AuctionActive(active: bool, countdown: string)
  {
    active && countdown != Countdown.Closed
  }

  /** The effect of a `setInterval` tick on the page: the countdown text, and whether the
      interval is cleared. */
  lemma {:induction false} TickActiveIff(active: bool, diff: int)
    ensures AuctionActive(active, Countdown.Format(active, diff)) <==> active && diff > 0
  {
    Countdown.FormatClosedIff(active, diff);
  }

  /** The place-bid button is disabled when the auction is not active, the current user is the
      auctioneer (`currentUser?.id === auctioneer?.id`, so two missing ids also disable it), or
      a bid is in flight. */
  function PlaceBidDisabled(active: bool, countdown: string, userId: Option<string>,
                            auctioneerId: Option<string>, loading: bool): (disabled: bool)
    ensures !disabled <==> AuctionActive(active, countdown) && userId != auctioneerId && !loading
  {
    !AuctionActive(active, countdown) || userId == auctioneerId || loading
  }

  // ---------------------------------------------------------------------------------------
  // The page's state

  /** The component's `useState` hooks for one loaded listing. */
  class ListingPage {
    /** `listing.listing.active` and `listing.listing.price`. */
    const active: bool
    const price: Option<int>
    var amount: Option<int>
    var autobid: Option<int>
    var autobidActive: bool
    var threshold: Option<int>
    var increment: Option<int>
    var highestBid: Option<int>
    var countdown: string
    var imageIndex: int
    var loading: bool
    var modalOpen: bool
    var ticking: bool

    /** The state after the listing has loaded: `highestBid = highest_bid || price`. */
    constructor (listingActive: bool, listingPrice: Option<int>, highest: Option<int>)
      ensures active == listingActive && price == listingPrice
      ensures highestBid == OrInt(highest, listingPrice)
      ensures amount.None? && autobid.None? && !autobidActive && threshold.None? && increment.None?
      ensures countdown == "" && imageIndex == 0 && !loading && !modalOpen && ticking
    {
      active := listingActive;
      price := listingPrice;
      amount, autobid := None, None;
      autobidActive := false;
      threshold, increment := None, None;
      highestBid := OrInt(highest, listingPrice);
      countdown := "";
      imageIndex := 0;
      loading, modalOpen := false, false;
      ticking := true;
    }

    /** One tick of the interval, `diff` milliseconds before the close: the countdown is
        reformatted, and a closed countdown clears the interval. */
    method Tick(diff: int)
      requires ticking
      modifies this`countdown, this`ticking
      ensures countdown == Countdown.Format(active, diff)
      ensures ticking == (active && diff > 0)
      ensures AuctionActive(active, countdown) == ticking
    {
      TickActiveIff(active, diff);
      if !active || diff <= 0 {
        ticking := false;
        countdown := Countdown.Closed;
      } else {
        countdown := Countdown.Format(active, diff);
      }
    }

    method HandlePrevImage(images: seq<string>)
      modifies this`imageIndex
      ensures imageIndex == Carousel.Prev(old(imageIndex), ImageCount(images))
    {
      var count := ImageCount(images);
      imageIndex := if imageIndex == 0 then count - 1 else imageIndex - 1;
    }

    method HandleNextImage(images: seq<string>)
      modifies this`imageIndex
      ensures imageIndex == Carousel.Next(old(imageIndex), ImageCount(images))
    {
      var count := ImageCount(images);
      imageIndex := if imageIndex == count - 1 then 0 else imageIndex + 1;
    }

    /** The modal's submit: a valid threshold and increment turn autobid on, copy the
        threshold into the bid form's autobid field and close the modal; otherwise nothing
        changes. */
    method HandleAutobidSubmit() returns (o: AutobidOutcome)
      modifies this`autobidActive, this`autobid, this`modalOpen
      ensures o == AutobidDecision(threshold, increment)
      ensures o == Activated ==> autobidActive && autobid == threshold && !modalOpen
      ensures o != Activated ==> autobidActive == old(autobidActive) && autobid == old(autobid) &&
                                 modalOpen == old(modalOpen)
    {
      o := AutobidDecision(threshold, increment);
      if o == Activated {
        autobidActive := true;
        autobid := threshold;
        modalOpen := false;
      }
    }

    /** The autobid switch: switching off clears the autobid field, switching on opens the
        modal. */
    method ToggleAutobid()
      modifies this`autobidActive, this`autobid, this`modalOpen
      ensures old(autobidActive) ==> !autobidActive && autobid.None? && modalOpen == old(modalOpen)
      ensures !old(autobidActive) ==> !autobidActive && autobid == old(autobid) && modalOpen
    {
      if autobidActive {
        autobidActive := false;
        autobid := None;
      } else {
        modalOpen := true;
      }
    }

    /** The form's submit: only a `Submit` decision marks a bid as in flight. */
    method HandlePlaceBid(signedIn: bool) returns (d: BidDecision)
      modifies this`loading
      ensures d == PlaceBidDecision(signedIn, amount, autobid, highestBid, price)
      ensures loading == (d.Submit? || old(loading))
    {
      d := PlaceBidDecision(signedIn, amount, autobid, highestBid, price);
      if d.Submit? {
        loading := true;
      }
    }

    /** The settled `placeBid` request for the submitted amount. The callback sees the
        `isAutobidActive` and `autobidThreshold` of the render that submitted, passed here as
        `autobidWasActive` and `capturedThreshold`, whatever the fields hold now. On success the
        highest bid is that amount, the amount field is cleared and the autobid field keeps the
        captured threshold only if autobid was on; on failure only the in-flight flag is
        cleared. */
    method OnBidSettled(success: bool, submitted: int, autobidWasActive: bool, capturedThreshold: Option<int>)
      modifies this`loading, this`highestBid, this`amount, this`autobid
      ensures !loading
      ensures success ==> highestBid == Some(submitted) && amount.None? &&
                          autobid == (if autobidWasActive then capturedThreshold else None)
      ensures !success ==> highestBid == old(highestBid) && amount == old(amount) && autobid == old(autobid)
    {
      loading := false;
      if success {
        highestBid := Some(submitted);
        amount := None;
        autobid := if autobidWasActive then capturedThreshold else None;
      }
    }
  }

  /** After a successful bid, the next bid must exceed it. */
  lemma NextBidMustExceed(submitted: int, amount: int, autobid: Option<int>, price: Option<int>)
    requires submitted != 0 && amount != 0
    ensures PlaceBidDecision(true, Some(amount), autobid, Some(submitted), price).Submit? <==> amount > submitted + 1
  {
  }
}
