/** The query logic of the public listings page (src/pages/general/ActiveListings.jsx): the
    default price ceiling, the `mm/dd/yyyy` date parser, the chain of filters over the loaded
    listings, and the fixed-size pagination of the result. */
module ActiveListings {

  import opened Common
  import Countdown

  const ListingsPerPage: nat := 9
  const DefaultMaxPrice: int := 1000

  datatype Category = Category(name: Option<string>)

  /** A listing as the page reads it. `endDate` and `closingDate` are the time values (in
      milliseconds) of `new Date(listing.endDate)` and `new Date(listing.closing_date)`;
      `None` is an Invalid Date, which is what a missing field gives. `price` is `None` when
      the listing has none. */
  datatype Listing = Listing(
    name: Option<string>,
    desc: Option<string>,
    category: Option<Category>,
    price: Option<int>,
    endDate: Option<int>,
    closingDate: Option<int>)

  // ---------------------------------------------------------------------------------------
  // maxPrice

  /** `listing.price || 0`. */
  function PriceOrZero(l: Listing): int
  {
    if TruthyInt(l.price) then l.price.value else 0
  }

  /** `Math.max(...listings.map(l => l.price || 0))` for a non-empty list. */
  function MaxOfPrices(ls: seq<Listing>): (m: int)
    requires ls != []
    ensures forall i :: 0 <= i < |ls| ==> PriceOrZero(ls[i]) <= m
    ensures exists i :: 0 <= i < |ls| && PriceOrZero(ls[i]) == m
  {
    if |ls| == 1 then PriceOrZero(ls[0])
    else
      var rest := MaxOfPrices(ls[1..]);
      assert forall i :: 1 <= i < |ls| ==> ls[i] == ls[1..][i - 1];
      if PriceOrZero(ls[0]) >= rest then PriceOrZero(ls[0]) else rest
  }

  /** The upper end of the price filter's default range: 1000 for an empty list, otherwise the
      highest price (a missing price counting as 0). */
  function MaxPrice(ls: seq<Listing>): (m: int)
    ensures ls == [] ==> m == DefaultMaxPrice
    ensures ls != [] ==> (forall i :: 0 <= i < |ls| ==> PriceOrZero(ls[i]) <= m) &&
                         (exists i :: 0 <= i < |ls| && PriceOrZero(ls[i]) == m)
  {
    if ls == [] then DefaultMaxPrice else MaxOfPrices(ls)
  }

  // ---------------------------------------------------------------------------------------
  // Filters

  /** The two ends of the price filter, as `Number(input)` gives them; `None` is NaN. */
  datatype PriceRange = PriceRange(lo: Option<int>, hi: Option<int>)

  /** The range the page sets whenever the listings change: `[0, maxPrice]`. */
  function InitialPriceRange(ls: seq<Listing>): PriceRange
  {
    PriceRange(Some(0), Some(MaxPrice(ls)))
  }

  /** The filter inputs: the search box, the category select, the price range and the two
      date text boxes of `endDate`. */
  datatype Query = Query(search: string, category: string, priceRange: PriceRange, start: string, end: string)

  /** The search filter: the lower-cased name or description contains the lower-cased term. */
  predicate SearchOk(l: Listing, term: string)
  {
    (l.name.Some? && Contains(Lower(l.name.value), Lower(term))) ||
    (l.desc.Some? && Contains(Lower(l.desc.value), Lower(term)))
  }

  /** The category filter: `listing.category?.name === selected`. */
  predicate CategoryOk(l: Listing, selected: string)
  {
    l.category.Some? && l.category.value.name == Some(selected)
  }

  /** The price filter: `price >= lo && price <= hi`. `None` stands for a missing (`undefined`)
      price, which fails, and for a NaN bound, which fails too; a listing whose price is JSON
      `null` is not modelled (JavaScript reads it as 0). */
  predicate PriceOk(l: Listing, r: PriceRange)
  {
    l.price.Some? && r.lo.Some? && r.hi.Some? && r.lo.value <= l.price.value <= r.hi.value
  }

  // ---------------------------------------------------------------------------------------
  // parseDate

  /** `s.split('/')`. */
  function SplitSlash(s: string): (parts: seq<string>)
    ensures |parts| >= 1
  {
    if s == [] then [""]
    else
      var rest := SplitSlash(s[1..]);
      if s[0] == '/' then [""] + rest else [[s[0]] + rest[0]] + rest[1..]
  }

  lemma {:induction false} SplitNoSlash(s: string)
    requires '/' !in s
    ensures SplitSlash(s) == [s]
  {
    if s != [] {
      SplitNoSlash(s[1..]);
      assert [s[0]] + s[1..] == s;
    }
  }

  lemma {:induction false} SplitJoin(a: string, b: string)
    requires '/' !in a
    ensures SplitSlash(a + "/" + b) == [a] + SplitSlash(b)
  {
    if a == [] {
      assert a + "/" + b == "/" + b;
      assert ("/" + b)[1..] == b;
    } else {
      var s := a + "/" + b;
      assert s[1..] == a[1..] + "/" + b;
      SplitJoin(a[1..], b);
      assert [a[0]] + a[1..] == a;
    }
  }

  /** `s` without the white space at its start. */
  function TrimStart(s: string): (t: string)
    ensures |t| <= |s| && t == s[|s| - |t|..]
    ensures forall i :: 0 <= i < |s| - |t| ==> IsSpace(s[i])
    ensures t == [] || !IsSpace(t[0])
  {
    if s != [] && IsSpace(s[0]) then TrimStart(s[1..]) else s
  }

  /** `s` without the white space at its end. */
  function TrimEnd(s: string): (t: string)
    ensures |t| <= |s| && t == s[..|t|]
    ensures forall i :: |t| <= i < |s| ==> IsSpace(s[i])
    ensures t == [] || !IsSpace(t[|t| - 1])
  {
    if s != [] && IsSpace(s[|s| - 1]) then TrimEnd(s[..|s| - 1]) else s
  }

  /** The text `Number` reads: `s` without leading and trailing white space. */
  function Trim(s: string): string
  {
    TrimEnd(TrimStart(s))
  }

  /** `Number(s)` for the strings the model reads: surrounding white space is ignored, and the
      rest is read by `NumberText`. */
  function NumberOf(s: string): (n: Option<int>)
    ensures (forall i :: 0 <= i < |s| ==> IsSpace(s[i])) ==> n == Some(0)
  {
    NumberText(Trim(s))
  }

  /** `Number` of text with no white space at either end: the empty text is 0, and otherwise
      it must be a run of decimal digits, optionally after a `+` or `-`; anything else is NaN
      (`None`). */
  function NumberText(t: string): (n: Option<int>)
  {
    if t == "" then Some(0)
    else if Countdown.AllDigits(t) then Some(Countdown.DecimalValue(t))
    else if (t[0] == '+' || t[0] == '-') && |t| > 1 && Countdown.AllDigits(t[1..]) then
      Some(if t[0] == '-' then -(Countdown.DecimalValue(t[1..]) as int) else Countdown.DecimalValue(t[1..]))
    else None
  }

  predicate AllSpace(s: string)
  {
    forall i :: 0 <= i < |s| ==> IsSpace(s[i])
  }

  /** Only the surrounding white space is dropped: text that neither starts nor ends with white
      space is kept whole, whatever white space pads it. */
  lemma {:induction false} TrimPadded(pre: string, t: string, post: string)
    requires AllSpace(pre) && AllSpace(post)
    requires t == [] || (!IsSpace(t[0]) && !IsSpace(t[|t| - 1]))
    ensures Trim(pre + t + post) == t
  {
    var u := t + post;
    assert pre + t + post == pre + u;
    TrimStartPadded(pre, u);
    TrimEndPadded(t, post);
    calc {
      Trim(pre + t + post);
      TrimEnd(TrimStart(pre + u));
      TrimEnd(TrimStart(u));
      t;
    }
  }

  lemma {:induction false} TrimStartPadded(pre: string, u: string)
    requires AllSpace(pre)
    ensures TrimStart(pre + u) == TrimStart(u)
  {
    if pre != [] {
      var s := pre + u;
      assert s[0] == pre[0] && IsSpace(s[0]);
      assert s[1..] == pre[1..] + u;
      TrimStartPadded(pre[1..], u);
    } else {
      assert pre + u == u;
    }
  }

  lemma {:induction false} TrimEndPadded(t: string, post: string)
    requires AllSpace(post)
    requires t == [] || (!IsSpace(t[0]) && !IsSpace(t[|t| - 1]))
    ensures TrimEnd(TrimStart(t + post)) == t
  {
    if t == [] {
      assert t + post == post;
      TrimStartBlank(post);
    } else {
      assert TrimStart(t) == t;
      TrimStartKeeps(t, post);
      TrimEndDrops(t, post);
    }
  }

  lemma {:induction false} TrimStartBlank(s: string)
    requires AllSpace(s)
    ensures TrimStart(s) == []
  {
    if s != [] {
      TrimStartBlank(s[1..]);
    }
  }

  /** With a non-blank `t`, `TrimStart(t + post)` is `TrimStart(t) + post`. */
  lemma {:induction false} TrimStartKeeps(t: string, post: string)
    requires t != [] && !IsSpace(t[|t| - 1])
    ensures TrimStart(t + post) == TrimStart(t) + post
  {
    if IsSpace(t[0]) {
      assert |t| > 1;
      assert (t + post)[1..] == t[1..] + post;
      TrimStartKeeps(t[1..], post);
    }
  }

  lemma {:induction false} TrimEndDrops(t: string, post: string)
    requires AllSpace(post)
    requires t != [] && !IsSpace(t[|t| - 1])
    ensures TrimEnd(TrimStart(t) + post) == TrimStart(t)
  {
    var u := TrimStart(t);
    assert u != [];
    assert u[|u| - 1] == t[|t| - 1];
    TrimEndSuffix(u, post);
  }

  lemma {:induction false} TrimEndSuffix(u: string, post: string)
    requires AllSpace(post)
    requires u != [] && !IsSpace(u[|u| - 1])
    ensures TrimEnd(u + post) == u
    decreases |post|
  {
    if post == [] {
      assert u + post == u;
    } else {
      var s := u + post;
      assert s[..|s| - 1] == u + post[..|post| - 1];
      TrimEndSuffix(u, post[..|post| - 1]);
    }
  }

  /** `Number` of decimal digits padded with white space is their value, so a date part typed
      with spaces around it reads as its digits. */
  lemma NumberOfPadded(pre: string, d: string, post: string)
    requires AllSpace(pre) && AllSpace(post) && Countdown.AllDigits(d)
    ensures NumberOf(pre + d + post) == Some(Countdown.DecimalValue(d))
  {
    TrimPadded(pre, d, post);
  }

  /** `Number` of bare decimal digits is their value (`''` is 0). */
  lemma NumberOfDigits(d: string)
    requires Countdown.AllDigits(d)
    ensures NumberOf(d) == Some(Countdown.DecimalValue(d))
  {
    if d != [] {
      assert Countdown.IsDigit(d[0]) && Countdown.IsDigit(d[|d| - 1]);
      NumberOfTrimmed(d);
    }
  }

  /** A sign before the digits is read: `-d` is the negated value and `+d` the value. */
  lemma NumberOfSigned(sign: char, d: string)
    requires sign == '-' || sign == '+'
    requires Countdown.AllDigits(d) && d != ""
    ensures NumberOf([sign] + d) == Some(if sign == '-' then -(Countdown.DecimalValue(d) as int) else Countdown.DecimalValue(d))
  {
    var t := [sign] + d;
    NumberOfTrimmed(t);
    assert t[1..] == d;
    assert !Countdown.IsDigit(t[0]);
  }

  /** `Number` reads text with no white space at either end as it stands. */
  lemma NumberOfTrimmed(t: string)
    requires t != [] && !IsSpace(t[0]) && !IsSpace(t[|t| - 1])
    ensures Trim(t) == t
  {
    TrimPadded("", t, "");
    assert "" + t + "" == t;
  }

  /** `Number` rejects a lone sign. */
  lemma NumberOfLoneSign(sign: char)
    requires sign == '-' || sign == '+'
    ensures NumberOf([sign]) == None
  {
    NumberOfTrimmed([sign]);
    assert !Countdown.IsDigit([sign][0]);
  }

  /** `Number` rejects digits followed by anything but a digit or white space (`'12a'`). */
  lemma NumberOfTrailingJunk(d: string, c: char)
    requires Countdown.AllDigits(d) && d != ""
    requires !Countdown.IsDigit(c) && !IsSpace(c)
    ensures NumberOf(d + [c]) == None
  {
    var t := d + [c];
    assert t[0] == d[0] && Countdown.IsDigit(t[0]);
    NumberOfTrimmed(t);
    assert !Countdown.IsDigit(t[|t| - 1]);
  }

  /** The number of days from 1970-01-01 to the given day of the proleptic Gregorian calendar
      (`m` from 1 to 12; `d` may run past the end of the month). */
  function DaysFromCivil(y: int, m: int, d: int): int
    requires 1 <= m <= 12
  {
    var y1 := if m <= 2 then y - 1 else y;
    var era := y1 / 400;
    var yoe := y1 - era * 400;
    var mp := if m > 2 then m - 3 else m + 9;
    var doy := (153 * mp + 2) / 5 + d - 1;
    var doe := yoe * 365 + yoe / 4 - yoe / 100 + doy;
    era * 146097 + doe - 719468
  }

  /** `MakeDay`: a month index outside 0..11 carries into the year and a day past the end of
      the month into the following months. */
  function MakeDay(year: int, month: int, date: int): int
  {
    DaysFromCivil(year + month / 12, month % 12 + 1, 1) + date - 1
  }

  /** The largest time value a Date holds. */
  const MaxTime: int := 8640000000000000

  /** `new Date(year, month, day)` at midnight: NaN in any argument gives an Invalid Date, a
      year from 0 to 99 means 1900 plus that year, and a time beyond the Date range is invalid.
      The model takes the browser's time zone to be UTC. */
  function MakeDate(year: Option<int>, month: Option<int>, day: Option<int>): (t: Option<int>)
    ensures t.Some? ==> year.Some? && month.Some? && day.Some? && -MaxTime <= t.value <= MaxTime
  {
    if year.None? || month.None? || day.None? then None
    else
      var y := if 0 <= year.value <= 99 then 1900 + year.value else year.value;
      var time := MakeDay(y, month.value, day.value) * Countdown.MsPerDay;
      if -MaxTime <= time <= MaxTime then Some(time) else None
  }

  /** A `Date` object: always truthy, even when its time value is NaN. */
  datatype DateValue = Date(time: Option<int>)

  function Part(parts: seq<string>, i: nat): Option<int>
  {
    if i < |parts| then NumberOf(parts[i]) else None
  }

  function Minus1(n: Option<int>): Option<int>
  {
    if n.Some? then Some(n.value - 1) else None
  }

  /** `parseDate(dateStr)`: `null` for an empty string, otherwise
      `new Date(year, month - 1, day)` from the `month/day/year` parts. */
  function ParseDate(s: string): (d: Option<DateValue>)
    ensures d.None? <==> s == ""
  {
    if s == "" then None
    else
      var parts := SplitSlash(s);
      Some(Date(MakeDate(Part(parts, 2), Minus1(Part(parts, 0)), Part(parts, 1))))
  }

  /** `mm/dd/yyyy` is read as month `mm - 1` (counted from 0), day `dd` of year `yyyy`. */
  lemma {:induction false} ParseDateFields(mm: string, dd: string, yyyy: string)
    requires Countdown.AllDigits(mm) && Countdown.AllDigits(dd) && Countdown.AllDigits(yyyy)
    ensures ParseDate(mm + "/" + dd + "/" + yyyy) ==
            Some(Date(MakeDate(Some(Countdown.DecimalValue(yyyy)), Some(Countdown.DecimalValue(mm) - 1),
                               Some(Countdown.DecimalValue(dd)))))
  {
    var parts := SplitDate(mm, dd, yyyy);
    ParseDateOf(mm + "/" + dd + "/" + yyyy, parts);
    var m := PartDigits(parts, 0);
    var d := PartDigits(parts, 1);
    var y := PartDigits(parts, 2);
  }

  lemma ParseDateOf(s: string, parts: seq<string>)
    requires s != "" && parts == SplitSlash(s)
    ensures ParseDate(s) == Some(Date(MakeDate(Part(parts, 2), Minus1(Part(parts, 0)), Part(parts, 1))))
  {
  }

  /** A part made of decimal digits reads as their value. */
  lemma PartDigits(parts: seq<string>, i: nat) returns (n: Option<int>)
    requires i < |parts| && Countdown.AllDigits(parts[i])
    ensures n == Part(parts, i) == Some(Countdown.DecimalValue(parts[i]))
  {
    NumberOfDigits(parts[i]);
    n := Part(parts, i);
  }

  /** The parts of `mm/dd/yyyy` are its three digit runs. */
  lemma {:induction false} SplitDate(mm: string, dd: string, yyyy: string) returns (parts: seq<string>)
    requires Countdown.AllDigits(mm) && Countdown.AllDigits(dd) && Countdown.AllDigits(yyyy)
    ensures mm + "/" + dd + "/" + yyyy != ""
    ensures parts == SplitSlash(mm + "/" + dd + "/" + yyyy) == [mm, dd, yyyy]
  {
    assert '/' !in mm by { NoSlashInDigits(mm); }
    assert '/' !in dd by { NoSlashInDigits(dd); }
    assert '/' !in yyyy by { NoSlashInDigits(yyyy); }
    var s := mm + "/" + dd + "/" + yyyy;
    assert s == mm + "/" + (dd + "/" + yyyy);
    SplitJoin(mm, dd + "/" + yyyy);
    SplitJoin(dd, yyyy);
    SplitNoSlash(yyyy);
    parts := SplitSlash(s);
  }

  lemma NoSlashInDigits(s: string)
    requires Countdown.AllDigits(s)
    ensures '/' !in s
  {
  }

  /** `a >= b` and `a <= b` on time values: false when either is NaN. */
  predicate AtLeast(a: Option<int>, b: Option<int>)
  {
    a.Some? && b.Some? && a.value >= b.value
  }

  predicate AtMost(a: Option<int>, b: Option<int>)
  {
    a.Some? && b.Some? && a.value <= b.value
  }

  /** The date filter for one listing end time: `(!start || t >= start) && (!end || t <= end)`. */
  predicate DateOk(t: Option<int>, startText: string, endText: string)
  {
    var start := ParseDate(startText);
    var end := ParseDate(endText);
    (start.None? || AtLeast(t, start.value.time)) && (end.None? || AtMost(t, end.value.time))
  }

  /** Which field the date filter reads. */
  datatype DateField = EndDateField | ClosingDateField

  function EndOf(l: Listing, f: DateField): Option<int>
  {
    match f
    case EndDateField => l.endDate
    case ClosingDateField => l.closingDate
  }

  /** The four steps of the chain, each one true when the page does not apply it. */
  predicate SearchStep(q: Query, l: Listing)
  {
    q.search != "" ==> SearchOk(l, q.search)
  }

  predicate CategoryStep(q: Query, l: Listing)
  {
    q.category != "" ==> CategoryOk(l, q.category)
  }

  predicate DateStep(q: Query, f: DateField, l: Listing)
  {
    q.start != "" || q.end != "" ==> DateOk(EndOf(l, f), q.start, q.end)
  }

  /** Every filter of the chain, each one only when the page applies it. */
  predicate Keeps(q: Query, f: DateField, l: Listing)
  {
    SearchStep(q, l) && CategoryStep(q, l) && PriceOk(l, q.priceRange) && DateStep(q, f, l)
  }

  function BySearch(ls: seq<Listing>, q: Query): seq<Listing>
  {
    if q.search != "" then Filter(ls, l => SearchOk(l, q.search)) else ls
  }

  function ByCategory(ls: seq<Listing>, q: Query): seq<Listing>
  {
    var xs := BySearch(ls, q);
    if q.category != "" then Filter(xs, l => CategoryOk(l, q.category)) else xs
  }

  function ByPrice(ls: seq<Listing>, q: Query): seq<Listing>
  {
    Filter(ByCategory(ls, q), l => PriceOk(l, q.priceRange))
  }

  /** The `filteredListings` chain reading the date from the given field. */
  function Chain(ls: seq<Listing>, q: Query, f: DateField): seq<Listing>
  {
    var xs := ByPrice(ls, q);
    if q.start != "" || q.end != "" then Filter(xs, l => DateOk(EndOf(l, f), q.start, q.end)) else xs
  }

  /** `filteredListings` as written: the date filter reads `listing.endDate`. */
  function FilteredListingsAsWritten(ls: seq<Listing>, q: Query): seq<Listing>
  {
    Chain(ls, q, EndDateField)
  }

  /** `filteredListings` with the date filter reading `listing.closing_date`, the closing time
      the listing cards display. */
  function FilteredListings(ls: seq<Listing>, q: Query): seq<Listing>
  {
    Chain(ls, q, ClosingDateField)
  }

  /** A step the chain takes only under a condition is a filter by "condition implies test". */
  lemma {:induction false} OptionalStep(xs: seq<Listing>, on: bool, p: Listing -> bool, target: Listing -> bool)
    requires forall l :: target(l) == (on ==> p(l))
    ensures (if on then Filter(xs, p) else xs) == Filter(xs, target)
  {
    if on {
      FilterSamePredicate(xs, p, target);
    } else {
      FilterAll(xs, target);
    }
  }

  /** An optional step after a filter is one filter by both. */
  lemma {:induction false} FilterThen(xs: seq<Listing>, on: bool, p: Listing -> bool, acc: Listing -> bool,
                                      target: Listing -> bool)
    requires forall l :: target(l) == (acc(l) && (on ==> p(l)))
    ensures (if on then Filter(Filter(xs, acc), p) else Filter(xs, acc)) == Filter(xs, target)
  {
    if on {
      FilterTwice(xs, acc, p, target);
    } else {
      FilterSamePredicate(xs, acc, target);
    }
  }

  lemma BySearchIsFilter(ls: seq<Listing>, q: Query)
    ensures BySearch(ls, q) == Filter(ls, l => SearchStep(q, l))
  {
    OptionalStep(ls, q.search != "", l => SearchOk(l, q.search), l => SearchStep(q, l));
  }

  lemma ByCategoryIsFilter(ls: seq<Listing>, q: Query)
    ensures ByCategory(ls, q) == Filter(ls, l => SearchStep(q, l) && CategoryStep(q, l))
  {
    BySearchIsFilter(ls, q);
    FilterThen(ls, q.category != "", l => CategoryOk(l, q.category), l => SearchStep(q, l),
               l => SearchStep(q, l) && CategoryStep(q, l));
  }

  lemma ByPriceIsFilter(ls: seq<Listing>, q: Query)
    ensures ByPrice(ls, q) == Filter(ls, l => SearchStep(q, l) && CategoryStep(q, l) && PriceOk(l, q.priceRange))
  {
    ByCategoryIsFilter(ls, q);
    FilterThen(ls, true, l => PriceOk(l, q.priceRange), l => SearchStep(q, l) && CategoryStep(q, l),
               l => SearchStep(q, l) && CategoryStep(q, l) && PriceOk(l, q.priceRange));
  }

  /** The chain is one filter by the conjunction of its steps. */
  lemma ChainIsOneFilter(ls: seq<Listing>, q: Query, f: DateField)
    ensures Chain(ls, q, f) == Filter(ls, l => Keeps(q, f, l))
  {
    ByPriceIsFilter(ls, q);
    FilterThen(ls, q.start != "" || q.end != "", l => DateOk(EndOf(l, f), q.start, q.end),
               l => SearchStep(q, l) && CategoryStep(q, l) && PriceOk(l, q.priceRange),
               l => Keeps(q, f, l));
  }

  /** The result is an order-preserving subsequence of the listings, and a listing is in it
      exactly when it passes every filter the query turns on. */
  lemma FilteredListingsSpec(ls: seq<Listing>, q: Query)
    ensures IsSubsequence(FilteredListings(ls, q), ls)
    ensures forall l :: l in FilteredListings(ls, q) <==> l in ls && Keeps(q, ClosingDateField, l)
  {
    ChainIsOneFilter(ls, q, ClosingDateField);
    FilterIsSubsequence(ls, l => Keeps(q, ClosingDateField, l));
  }

  /** What each kept listing satisfies: a non-empty search term occurs in its name or its
      description ignoring case, its category is the selected one, its price lies in the range
      with both ends included, and its closing time lies between the parsed bounds, both
      included. */
  lemma KeptListing(ls: seq<Listing>, q: Query, l: Listing)
    requires l in FilteredListings(ls, q)
    ensures q.search != "" ==>
              (l.name.Some? && Contains(Lower(l.name.value), Lower(q.search))) ||
              (l.desc.Some? && Contains(Lower(l.desc.value), Lower(q.search)))
    ensures q.category != "" ==> l.category.Some? && l.category.value.name == Some(q.category)
    ensures l.price.Some? && q.priceRange.lo.Some? && q.priceRange.hi.Some? &&
            q.priceRange.lo.value <= l.price.value <= q.priceRange.hi.value
    ensures q.start != "" ==> AtLeast(l.closingDate, ParseDate(q.start).value.time)
    ensures q.end != "" ==> AtMost(l.closingDate, ParseDate(q.end).value.time)
  {
    FilteredListingsSpec(ls, q);
  }

  /** With no search term, no category, the default price range and no dates, every listing
      that has a non-negative price is shown. */
  lemma {:induction false} DefaultQueryShowsPriced(ls: seq<Listing>, l: Listing)
    requires l in ls
    ensures l in FilteredListings(ls, Query("", "", InitialPriceRange(ls), "", "")) <==>
            l.price.Some? && l.price.value >= 0
  {
    var q := Query("", "", InitialPriceRange(ls), "", "");
    FilteredListingsSpec(ls, q);
    var i :| 0 <= i < |ls| && ls[i] == l;
    assert PriceOrZero(ls[i]) <= MaxPrice(ls);
  }

  /** The date filter as written never keeps a listing whose `endDate` is not a valid date, so
      once either date box is filled in, a list of listings that carry only `closing_date`
      filters down to nothing. */
  lemma {:induction false} AsWrittenDateFilterDropsAll(ls: seq<Listing>, q: Query)
    requires q.start != "" || q.end != ""
    requires forall i :: 0 <= i < |ls| ==> ls[i].endDate.None?
    ensures FilteredListingsAsWritten(ls, q) == []
  {
    ChainIsOneFilter(ls, q, EndDateField);
    forall l | l in ls ensures !Keeps(q, EndDateField, l) {
      assert l.endDate.None?;
      assert !DateOk(None, q.start, q.end);
    }
    FilterNone(ls, l => Keeps(q, EndDateField, l));
  }

  /** With the closing date read instead, a listing that closes exactly on a bound is kept:
      both bounds are inclusive. */
  lemma BoundsInclusive(t: int, startText: string, endText: string)
    requires startText != "" && endText != ""
    requires ParseDate(startText).value.time == Some(t)
    requires ParseDate(endText).value.time == Some(t)
    ensures DateOk(Some(t), startText, endText)
  {
  }

  /** An empty bound does not restrict, and filling in only one bound leaves the other side
      open. */
  lemma OneSidedBound(t: Option<int>, startText: string)
    ensures DateOk(t, startText, "") <==> startText == "" || AtLeast(t, ParseDate(startText).value.time)
    ensures DateOk(t, "", startText) <==> startText == "" || AtMost(t, ParseDate(startText).value.time)
  {
  }

  // ---------------------------------------------------------------------------------------
  // Pagination

  /** `Math.ceil(n / 9)`. */
  function TotalPages(n: nat): (t: nat)
    ensures t * ListingsPerPage >= n
    ensures t > 0 ==> (t - 1) * ListingsPerPage < n
  {
    (n + ListingsPerPage - 1) / ListingsPerPage
  }

  function Min(a: int, b: int): int
  {
    if a <= b then a else b
  }

  function Max(a: int, b: int): int
  {
    if a >= b then a else b
  }

  /** `xs.slice(from, to)`: negative positions count from the end, and both are clamped to the
      list. */
  function Slice<T>(xs: seq<T>, from: int, to: int): (r: seq<T>)
    ensures |r| <= |xs|
    ensures 0 <= from <= |xs| && from <= to ==> r == xs[from..Min(to, |xs|)]
  {
    var k := if from < 0 then Max(|xs| + from, 0) else Min(from, |xs|);
    var e := if to < 0 then Max(|xs| + to, 0) else Min(to, |xs|);
    if k < e then xs[k..e] else []
  }

  /** `currentListings` for `currentPage == page`. */
  function Page<T>(xs: seq<T>, page: int): (r: seq<T>)
    ensures |r| <= ListingsPerPage
    ensures 1 <= page && (page - 1) * ListingsPerPage <= |xs| ==>
              r == xs[(page - 1) * ListingsPerPage..Min(page * ListingsPerPage, |xs|)]
    ensures (page - 1) * ListingsPerPage >= |xs| ==> r == []
  {
    var start := (page - 1) * ListingsPerPage;
    Slice(xs, start, start + ListingsPerPage)
  }

  /** Pages 1 to `k` one after another. */
  function Pages<T>(xs: seq<T>, k: nat): seq<T>
  {
    if k == 0 then [] else Pages(xs, k - 1) + Page(xs, k)
  }

  lemma {:induction false} PagesPrefix<T>(xs: seq<T>, k: nat)
    ensures Pages(xs, k) == xs[..Min(k * ListingsPerPage, |xs|)]
  {
    if k > 0 {
      PagesPrefix(xs, k - 1);
      var a := Min((k - 1) * ListingsPerPage, |xs|);
      var b := Min(k * ListingsPerPage, |xs|);
      if (k - 1) * ListingsPerPage <= |xs| {
        assert Page(xs, k) == xs[a..b];
        assert xs[..a] + xs[a..b] == xs[..b];
      } else {
        assert a == b;
      }
    }
  }

  /** The pagination buttons 1 to `totalPages` show every filtered listing exactly once, in
      order: the pages concatenated are the whole list. */
  lemma PagesPartition<T>(xs: seq<T>)
    ensures Pages(xs, TotalPages(|xs|)) == xs
  {
    PagesPrefix(xs, TotalPages(|xs|));
  }

  /** Every listing of the result is on the page its position gives. */
  lemma PageOfIndex<T>(xs: seq<T>, i: nat)
    requires i < |xs|
    ensures var p := i / ListingsPerPage + 1;
            1 <= p <= TotalPages(|xs|) && Page(xs, p)[i % ListingsPerPage] == xs[i]
  {
    var p := i / ListingsPerPage + 1;
    assert (p - 1) * ListingsPerPage <= i;
    assert i < p * ListingsPerPage;
  }
}
