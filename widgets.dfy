/** The banner slider of the home page. */
module Slider {

  /** The slider shows three images. */
  const ImageCount := 3

  /** `nextSlide`: the last index wraps to the first. */
  function NextIndex(prev: int, n: int): (r: int)
    requires 0 <= prev < n
    ensures 0 <= r < n
    ensures prev == n - 1 ==> r == 0
    ensures prev < n - 1 ==> r == prev + 1
  {
    if prev == n - 1 then 0 else prev + 1
  }

  /** `prevSlide`: the first index wraps to the last. */
  function PrevIndex(prev: int, n: int): (r: int)
    requires 0 <= prev < n
    ensures 0 <= r < n
    ensures prev == 0 ==> r == n - 1
    ensures prev > 0 ==> r == prev - 1
  {
    if prev == 0 then n - 1 else prev - 1
  }

  /** Each arrow undoes the other. */
  lemma PrevUndoesNext(i: int, n: int)
    requires 0 <= i < n
    ensures PrevIndex(NextIndex(i, n), n) == i
    ensures NextIndex(PrevIndex(i, n), n) == i
  {
  }

  /** `k` presses of the right arrow from `i`. */
  function Advance(i: int, k: nat, n: int): (r: int)
    requires 0 <= i < n
    ensures 0 <= r < n
  {
    if k == 0 then i else NextIndex(Advance(i, k - 1, n), n)
  }

  /** Pressing `a` times and then `b` times is pressing `a + b` times. */
  lemma {:induction false} AdvanceCompose(i: int, a: nat, b: nat, n: int)
    requires 0 <= i < n
    ensures Advance(i, a + b, n) == Advance(Advance(i, a, n), b, n)
  {
    if b > 0 {
      AdvanceCompose(i, a, b - 1, n);
    }
  }

  /** Before the wrap-around each press adds one. */
  lemma {:induction false} AdvanceBelow(i: int, k: nat, n: int)
    requires 0 <= i && i + k < n
    ensures Advance(i, k, n) == i + k
  {
    if k > 0 {
      AdvanceBelow(i, k - 1, n);
    }
  }

  /** As many presses as there are images come back to the start. */
  lemma FullTurn(i: int, n: int)
    requires 0 <= i < n
    ensures Advance(i, n, n) == i
  {
    AdvanceBelow(i, n - 1 - i, n);
    AdvanceCompose(i, n - 1 - i, 1 + i, n);
    AdvanceCompose(n - 1, 1, i, n);
    AdvanceBelow(0, i, n);
  }

  class ImageSlider {
    var currentIndex: int
    var isPaused: bool

    ghost predicate Valid()
      reads this
    {
      0 <= currentIndex < ImageCount
    }

    constructor ()
      ensures Valid() && currentIndex == 0 && !isPaused
    {
      currentIndex, isPaused := 0, false;
    }

    method PrevSlide()
      requires Valid()
      modifies this
      ensures Valid()
      ensures currentIndex == PrevIndex(old(currentIndex), ImageCount) && isPaused == old(isPaused)
    {
      currentIndex := if currentIndex == 0 then ImageCount - 1 else currentIndex - 1;
    }

    method NextSlide()
      requires Valid()
      modifies this
      ensures Valid()
      ensures currentIndex == NextIndex(old(currentIndex), ImageCount) && isPaused == old(isPaused)
    {
      currentIndex := if currentIndex == ImageCount - 1 then 0 else currentIndex + 1;
    }

    /** An indicator button; there is one per image. */
    method SelectSlide(k: int)
      requires 0 <= k < ImageCount
      modifies this
      ensures Valid() && currentIndex == k && isPaused == old(isPaused)
    {
      currentIndex := k;
    }

    method MouseEnter()
      modifies this
      ensures isPaused && currentIndex == old(currentIndex)
    {
      isPaused := true;
    }

    method MouseLeave()
      modifies this
      ensures !isPaused && currentIndex == old(currentIndex)
    {
      isPaused := false;
    }

    /** One beat of the one-second interval, which runs only while the slider is not paused. */
    method Tick()
      requires Valid()
      modifies this
      ensures Valid() && isPaused == old(isPaused)
      ensures old(isPaused) ==> currentIndex == old(currentIndex)
      ensures !old(isPaused) ==> currentIndex == NextIndex(old(currentIndex), ImageCount)
    {
      if !isPaused {
        NextSlide();
      }
    }
  }
}

/** The sale countdown: the time left, split into hours, minutes and seconds. */
module Countdown {
  import opened Text

  datatype TimeLeft = TimeLeft(hours: int, minutes: int, seconds: int)

  /** The display before the first beat of the interval. */
  const Initial := TimeLeft(5, 0, 0)

  /** The sale ends five hours after the page opens, in milliseconds. */
  const Duration := 5 * 60 * 60 * 1000

  /** One beat: the new display, and whether the interval stops. For a positive distance
      `Math.floor((distance / q) % m)` equals `(distance / q) % m` on integers, since
      flooring a positive quotient commutes with the remainder by a whole `m`. */
  datatype Beat = Beat(time: TimeLeft, stop: bool)

  function BeatAt(distance: int): (r: Beat)
    ensures r.stop <==> distance <= 0
    ensures distance <= 0 ==> r.time == TimeLeft(0, 0, 0)
    ensures 0 <= r.time.hours < 24 && 0 <= r.time.minutes < 60 && 0 <= r.time.seconds < 60
  {
    if distance <= 0 then Beat(TimeLeft(0, 0, 0), true)
    else Beat(TimeLeft((distance / 3600000) % 24, (distance / 60000) % 60, (distance / 1000) % 60), false)
  }

  /** Under a day left, the three parts add back up to the whole seconds left. */
  lemma PartsAddUp(distance: int)
    requires 0 < distance < 24 * 3600000
    ensures var t := BeatAt(distance).time;
      t.hours * 3600 + t.minutes * 60 + t.seconds == distance / 1000
  {
    var s := distance / 1000;
    assert distance / 60000 == s / 60;
    assert distance / 3600000 == s / 3600;
    assert s / 3600 < 24;
    assert (s / 60) % 60 == (s % 3600) / 60;
  }

  /** At the moment the page opens the first beat would show the same five hours. */
  lemma StartsAtInitial()
    ensures BeatAt(Duration).time == Initial
  {
  }

  /** `format`: a leading zero exactly below ten. */
  function Format(n: nat): (r: string)
    ensures r == "0" + Decimal(n) <==> n < 10
    ensures n >= 10 ==> r == Decimal(n)
    ensures r[0] == '0' <==> n < 10
  {
    if n < 10 then "0" + Decimal(n) else Decimal(n)
  }

  /** Values from 0 to 59, as minutes and seconds are, print as exactly two digits. */
  lemma FormatTwoChars(n: nat)
    requires n < 60
    ensures |Format(n)| == 2
  {
    if n >= 10 {
      DecimalTwoDigits(n);
    }
  }

  function Display(t: TimeLeft): string
    requires 0 <= t.hours && 0 <= t.minutes && 0 <= t.seconds
  {
    Format(t.hours) + ":" + Format(t.minutes) + ":" + Format(t.seconds)
  }

  /** Every beat reads as "hh:mm:ss". */
  lemma DisplayWidth(distance: int)
    ensures |Display(BeatAt(distance).time)| == 8
  {
    var t := BeatAt(distance).time;
    FormatTwoChars(t.hours);
    FormatTwoChars(t.minutes);
    FormatTwoChars(t.seconds);
  }
}

/** The "Today's Best Deals" list. */
module Deals {
  import opened Base
  import opened Entities

  /** The threshold the code applies (the comment beside it says 30). */
  const DealDiscount := 20

  /** The navbar category, compared exactly; "" keeps everything. */
  function InCategory(all: seq<Product>, selected: string): (r: seq<Product>)
    ensures selected == "" ==> r == all
    ensures IsSubsequence(r, all)
  {
    if selected == "" then (SubsequenceReflexive(all); all)
    else
      var keep := (p: Product) => p.category == selected;
      FilterIsSubsequence(all, keep);
      Filter(all, keep)
  }

  predicate IsDeal(p: Product)
  {
    p.discount >= DealDiscount
  }

  function BestDeals(all: seq<Product>, selected: string): (r: seq<Product>)
    ensures forall i :: 0 <= i < |r| ==> IsDeal(r[i])
    ensures |r| <= |all|
  {
    Filter(InCategory(all, selected), IsDeal)
  }

  /** The deals keep the catalogue's order, and a product is listed exactly when it is in the
      selected category (exactly, not as a substring) and discounted by at least 20. */
  lemma BestDealsSpec(all: seq<Product>, selected: string)
    ensures IsSubsequence(BestDeals(all, selected), all)
    ensures forall p :: p in BestDeals(all, selected) <==>
              p in all && (selected == "" || p.category == selected) && IsDeal(p)
  {
    var c := InCategory(all, selected);
    FilterIsSubsequence(c, IsDeal);
    SubsequenceTransitive(BestDeals(all, selected), c, all);
    forall p ensures p in BestDeals(all, selected) <==> p in all && (selected == "" || p.category == selected) && IsDeal(p) {
      if p in all && (selected == "" || p.category == selected) {
        var i :| 0 <= i < |all| && all[i] == p;
        assert p in c;
      }
    }
  }

  /** A category that merely contains the selected one is not a match here. */
  lemma ExactNotSubstring(p: Product)
    requires p.category == "silk saree" && p.discount == 25
    ensures BestDeals([p], "saree") == [] && BestDeals([p], "silk saree") == [p]
  {
  }
}
