/** The "load more" paging both public project listings use
    (src/components/Projects.tsx and src/components/ProjectsFetch.tsx): a
    count of visible cards that starts at four, grows by three per click up
    to the filtered list's length, and goes back to four on a category
    change. */
module Pagination {

  /** `useState(4)` and the reset on a tab click. */
  const InitialVisible: nat := 4

  /** How many cards a click adds at most. */
  const Step: nat := 3

  /** `Math.min(prev + 3, filtered.length)`: never past the end of the list,
      never more than three more, and, from a count below the length, always
      at least one more. */
  function LoadMore(visible: nat, len: nat): (r: nat)
    ensures r <= len && r <= visible + Step
    ensures r == len || r == visible + Step
    ensures visible < len ==> visible < r
  {
    if visible + Step < len then visible + Step else len
  }

  /** `visible < filtered.length`: whether the "Load More" button shows. */
  predicate ShowLoadMore(visible: nat, len: nat) {
    visible < len
  }

  /** `filtered.slice(0, visible)`: the first `visible` cards, or all of them
      when there are fewer. */
  function VisibleSlice<T>(xs: seq<T>, visible: nat): (r: seq<T>)
    ensures |r| == if visible < |xs| then visible else |xs|
    ensures r == xs[..|r|]
  {
    if visible < |xs| then xs[..visible] else xs
  }

  /** The count after `clicks` presses of the button, each press made only
      while the button shows. */
  function AfterClicks(visible: nat, len: nat, clicks: nat): nat
    decreases clicks
  {
    if clicks == 0 || !ShowLoadMore(visible, len) then visible
    else AfterClicks(LoadMore(visible, len), len, clicks - 1)
  }

  /** Once the count has been at most the length, pressing never takes it
      past the length; and after enough presses (one per three hidden cards)
      every card shows and the button is gone. */
  lemma {:induction false} ClicksReachEnd(visible: nat, len: nat, clicks: nat)
    requires visible <= len
    ensures AfterClicks(visible, len, clicks) <= len
    ensures clicks * Step >= len - visible ==> AfterClicks(visible, len, clicks) == len
    ensures clicks * Step >= len - visible ==> !ShowLoadMore(AfterClicks(visible, len, clicks), len)
    decreases clicks
  {
    if clicks > 0 && ShowLoadMore(visible, len) {
      ClicksReachEnd(LoadMore(visible, len), len, clicks - 1);
    }
  }

  /** Every press while the button shows reveals at least one more card,
      and the visible slice only ever grows by appending. */
  lemma MoreCardsAfterClick<T>(xs: seq<T>, visible: nat)
    requires ShowLoadMore(visible, |xs|)
    ensures |VisibleSlice(xs, LoadMore(visible, |xs|))| > |VisibleSlice(xs, visible)|
    ensures VisibleSlice(xs, visible) == VisibleSlice(xs, LoadMore(visible, |xs|))[..visible]
  {
  }
}
