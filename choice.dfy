/** The bot's random draws (random.choice), with the random index made a parameter. */
module Choice {

  /** The element a draw over `xs` lands on; `pick` stands for the random index.
      Every element is the result of some pick, and the source raises on an empty list,
      so callers show that `xs` is not empty. */
  function Choose<T>(xs: seq<T>, pick: nat): (x: T)
    requires |xs| > 0
    ensures x in xs
    ensures pick < |xs| ==> x == xs[pick]
  {
    xs[pick % |xs|]
  }
}
