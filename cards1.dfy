/** The compact listing card of the home page (src/components/Cards1.jsx). It follows the same
    heart, bid-button and countdown rules as the full card, without an image carousel. */
module Cards1 {

  import opened Common
  import Countdown
  import CardListing

  /** The component's `useState` hooks. */
  class CompactCard {
    const active: bool
    var heart: CardListing.Colour
    var amount: Option<int>
    var loading: bool
    var highestBid: Option<int>
    var countdown: string
    var modalOpen: bool
    var ticking: bool

    constructor (listingActive: bool, watchlist: bool)
      ensures active == listingActive
      ensures heart == CardListing.InitialHeart(watchlist)
      ensures amount.None? && !loading && highestBid.None? && countdown == "" && !modalOpen && ticking
    {
      active := listingActive;
      heart := CardListing.InitialHeart(watchlist);
      amount := None;
      loading := false;
      highestBid := None;
      countdown := "";
      modalOpen := false;
      ticking := true;
    }

    method Tick(diff: int)
      requires ticking
      modifies this`countdown, this`ticking
      ensures countdown == Countdown.Format(active, diff)
      ensures ticking == (active && diff > 0)
      ensures countdown == Countdown.Closed <==> !ticking
    {
      Countdown.FormatClosedIff(active, diff);
      if !active || diff <= 0 {
        ticking := false;
        countdown := Countdown.Closed;
      } else {
        countdown := Countdown.Format(active, diff);
      }
    }

    method HandleWatchlist(r: CardListing.WatchlistResponse, pathname: string)
      returns (guest: Option<string>, remove: bool)
      modifies this`heart
      ensures heart == CardListing.HeartAfter(old(heart), r)
      ensures guest == CardListing.GuestToStore(r)
      ensures remove <==> CardListing.RemovesFromWatchlist(r, pathname)
    {
      guest := CardListing.GuestToStore(r);
      remove := CardListing.Succeeded(r) && Contains(pathname, CardListing.WatchlistPath);
      if CardListing.Succeeded(r) {
        heart := if Contains(r.message, CardListing.AddedWord) then CardListing.Red else CardListing.Grey;
      }
    }

    method HandleBidClick(access: Option<string>) returns (c: CardListing.BidClick)
      modifies this`modalOpen
      ensures c == CardListing.OnBidClick(access)
      ensures modalOpen == (c == CardListing.OpenBidModal || old(modalOpen))
    {
      c := CardListing.OnBidClick(access);
      if c == CardListing.OpenBidModal {
        modalOpen := true;
      }
    }

    /** `submitHandler` once `placeBid` has settled. */
    method SubmitBid(success: bool)
      modifies this`loading, this`highestBid, this`amount, this`modalOpen
      ensures !loading
      ensures success ==> highestBid == old(amount) && amount.None? && !modalOpen
      ensures !success ==> highestBid == old(highestBid) && amount == old(amount) && modalOpen == old(modalOpen)
    {
      var sent := amount;
      loading := false;
      if success {
        highestBid := sent;
        amount := None;
        modalOpen := false;
      }
    }
  }
}
