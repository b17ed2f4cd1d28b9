/** The streaming-progress test that decides when the loading spinner goes away. */
module Loading {

  /** The count of displayed Gaussians above which the scene is shown regardless of progress. */
  const DisplayedEnough: int := 1000000

  /** The `loaded` handler's test: more than half of all splats have arrived,
      or more than a million are already on screen. The comparison with half
      the total is made on numbers, so an odd total is not rounded. */
  function HidesSpinner(totalLoaded: int, numDisplayed: int, totalSize: int): (hidden: bool)
    ensures hidden <==> 2 * totalLoaded > totalSize || numDisplayed > DisplayedEnough
  {
    totalLoaded as real > totalSize as real / 2.0 || numDisplayed as real > 1000000.0
  }

  /** Progress only grows while streaming: once the test passes it keeps passing. */
  lemma HiddenStaysHidden(totalLoaded: int, numDisplayed: int, totalSize: int,
                          laterLoaded: int, laterDisplayed: int)
    requires HidesSpinner(totalLoaded, numDisplayed, totalSize)
    requires totalLoaded <= laterLoaded && numDisplayed <= laterDisplayed
    ensures HidesSpinner(laterLoaded, laterDisplayed, totalSize)
  {
  }

  /** Exactly half is not enough: an even total needs one more than half. */
  lemma HalfIsNotEnough(totalSize: nat)
    ensures !HidesSpinner(totalSize, 0, 2 * totalSize)
    ensures HidesSpinner(totalSize + 1, 0, 2 * totalSize)
  {
  }
}
