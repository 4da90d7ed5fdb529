/** The wrapper around the page's own search bar, which fades it out while the
    fixed copy is shown. Visibility switches with hysteresis: on above 100 px
    from the top of the viewport, off below 120 px, and unchanged in between. */
module SearchBarWrapper {
  import opened Wrappers

  const ShowThreshold: real := 100.0
  const HideThreshold: real := 120.0

  /** The visibility after one scroll event, given the search bar's distance
      `top` from the top of the viewport. */
  function NextVisible(top: real, current: bool): (v: bool)
    ensures top < ShowThreshold ==> v
    ensures top > HideThreshold ==> !v
    ensures ShowThreshold <= top <= HideThreshold ==> v == current
  {
    if top < ShowThreshold then true
    else if top > HideThreshold then false
    else current
  }

  /** The visibility after a run of scroll events. */
  function Replay(tops: seq<real>, current: bool): bool
    decreases |tops|
  {
    if tops == [] then current else Replay(tops[1..], NextVisible(tops[0], current))
  }

  /** Scrolling inside the band between the thresholds never changes the
      state, so the bar does not flicker at a single threshold. */
  lemma {:induction false} BandKeepsState(tops: seq<real>, current: bool)
    requires forall i | 0 <= i < |tops| :: ShowThreshold <= tops[i] <= HideThreshold
    ensures Replay(tops, current) == current
    decreases |tops|
  {
    if tops != [] {
      BandKeepsState(tops[1..], current);
    }
  }

  /** The fixed bar goes from shown to hidden only through a position below
      the hide threshold, and from hidden to shown only through one above the
      show threshold. */
  lemma {:induction false} SwitchNeedsCrossing(tops: seq<real>, current: bool)
    ensures Replay(tops, current) != current ==>
      exists i | 0 <= i < |tops| :: if current then tops[i] > HideThreshold else tops[i] < ShowThreshold
    decreases |tops|
  {
    if tops != [] && Replay(tops, current) != current {
      var next := NextVisible(tops[0], current);
      if next == current {
        SwitchNeedsCrossing(tops[1..], current);
        var i :| 0 <= i < |tops[1..]| && if current then tops[1..][i] > HideThreshold else tops[1..][i] < ShowThreshold;
        assert tops[i + 1] == tops[1..][i];
      } else {
        assert if current then tops[0] > HideThreshold else tops[0] < ShowThreshold;
      }
    }
  }

  class SearchBarWrapper {
    var isFixedVisible: bool

    constructor ()
      ensures !isFixedVisible
    {
      isFixedVisible := false;
    }

    /** `handleScroll`; `anchorTop` is `None` when the original search bar is
        not in the document. */
    method HandleScroll(anchorTop: Option<real>)
      modifies this
      ensures anchorTop.None? ==> isFixedVisible == old(isFixedVisible)
      ensures anchorTop.Some? ==> isFixedVisible == NextVisible(anchorTop.value, old(isFixedVisible))
    {
      if anchorTop.None? {
        return;
      }
      var top := anchorTop.value;
      if top < ShowThreshold {
        isFixedVisible := true;
      } else if top > HideThreshold {
        isFixedVisible := false;
      }
    }
  }
}
