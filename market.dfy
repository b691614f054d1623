/**
  The market summary of a push (get_market_context in bot.py): each configured symbol's
  quote is classified by its intraday range relative to its open, the symbols that could
  not be read are skipped, and the list of states is reduced to one narrative text.
  The quote provider is a parameter `fetch` that gives, per ticker, what the request,
  the JSON decoding and the float conversions produced.
 */
module Market {
  import opened Wrappers
  import opened Choice

  /** What one quote request yields once decoded. */
  datatype Response =
    | Failed   // the request, the JSON decoding or a float conversion raised: the symbol is skipped
    | ApiError // the JSON object carries a "code" key: the symbol is skipped
    | Fields(high: Option<real>, low: Option<real>, open: Option<real>) // an absent field reads as 0

  /** The per-symbol states, named as in the source. */
  datatype State = Ruhig | Aktiv | Unruhig

  /** The provider tickers, in the order the source's symbol table lists them. */
  const Symbols: seq<string> := ["DAX", "SPX", "XAU/USD", "EUR/USD"]

  const TurbulentAbove: real := 0.015
  const ActiveAbove: real := 0.007

  const TurbulentText: string := "Die Märkte wirken angespannt. Bewegungen entstehen eher aus Dynamik als aus Klarheit."
  const ActiveText: string := "Das Marktumfeld zeigt Bewegung, aber ohne klare Dominanz. Geduld ist sinnvoll."
  const CalmTexts: seq<string> := [
    "Die Märkte wirken ruhig und strukturiert. Ein Umfeld für saubere Vorbereitung.",
    "Aktuell zeigt sich wenig Marktdruck. Beobachtung ist wertvoller als Aktion.",
    "Das Umfeld ist ruhig. Fokus auf Struktur statt Bewegung."
  ]

  /** The heading put in front of the narrative inside a push. */
  const MarketHeading: string := "\n\n📊 *Marktumfeld*\n"

  function Abs(x: real): (a: real)
    ensures a >= 0.0 && (a == x || a == -x)
  {
    if x < 0.0 then -x else x
  }

  /** How much a state says the market moves: calm < active < turbulent. */
  function Severity(s: State): nat
  {
    match s
    case Ruhig => 0
    case Aktiv => 1
    case Unruhig => 2
  }

  /** The state of one symbol from its range ratio |high - low| / open. */
  function Classify(rangePct: real): (s: State)
  {
    if rangePct > TurbulentAbove then Unruhig
    else if rangePct > ActiveAbove then Aktiv
    else Ruhig
  }

  /** Each state owns one band of ratios: (0.015, oo) turbulent, (0.007, 0.015] active,
      everything up to 0.007 (negative ratios from a negative open included) calm. */
  lemma ClassifyBands(rangePct: real)
    ensures Classify(rangePct) == Unruhig <==> rangePct > 0.015
    ensures Classify(rangePct) == Aktiv <==> 0.007 < rangePct <= 0.015
    ensures Classify(rangePct) == Ruhig <==> rangePct <= 0.007
  {
  }

  /** The thresholds themselves fall into the lower band. */
  lemma ClassifyAtThresholds()
    ensures Classify(0.015) == Aktiv && Classify(0.0151) == Unruhig
    ensures Classify(0.007) == Ruhig && Classify(0.0071) == Aktiv
  {
  }

  /** A wider range never gives a calmer state. */
  lemma ClassifyMonotone(a: real, b: real)
    requires a <= b
    ensures Severity(Classify(a)) <= Severity(Classify(b))
  {
  }

  /** The state a response adds to the list, if any. */
  function StateOf(r: Response): (s: Option<State>)
    ensures s.None? <==> r.Failed? || r.ApiError? || r.open.GetOr(0.0) == 0.0
    ensures s.Some? ==> s.value == Classify(Abs(r.high.GetOr(0.0) - r.low.GetOr(0.0)) / r.open.GetOr(0.0))
  {
    match r
    case Failed => None
    case ApiError => None
    case Fields(high, low, open) =>
      var o := open.GetOr(0.0);
      if o == 0.0 then None
      else Some(Classify(Abs(high.GetOr(0.0) - low.GetOr(0.0)) / o))
  }

  /** What the loop over the symbols appends for one response. */
  function Contribution(r: Response): seq<State>
  {
    match StateOf(r)
    case None => []
    case Some(s) => [s]
  }

  /** The list of states the loop builds from the responses, in order. */
  function StatesOf(rs: seq<Response>): (states: seq<State>)
    ensures |states| <= |rs|
  {
    if rs == [] then [] else StatesOf(rs[..|rs| - 1]) + Contribution(rs[|rs| - 1])
  }

  /** The responses for the configured symbols, in order. */
  function Fetched(fetch: string -> Response): (rs: seq<Response>)
    ensures |rs| == |Symbols|
    ensures forall i :: 0 <= i < |Symbols| ==> rs[i] == fetch(Symbols[i])
  {
    seq(|Symbols|, i requires 0 <= i < |Symbols| => fetch(Symbols[i]))
  }

  /** The loop of the source: one request per symbol, each adding at most one state. */
  method CollectStates(fetch: string -> Response) returns (states: seq<State>)
    ensures states == StatesOf(Fetched(fetch))
    ensures |states| <= |Symbols|
  {
    ghost var rs := Fetched(fetch);
    states := [];
    var i := 0;
    while i < |Symbols|
      invariant 0 <= i <= |Symbols|
      invariant states == StatesOf(rs[..i])
    {
      var r := fetch(Symbols[i]);
      assert rs[..i + 1][..i] == rs[..i];
      var s := StateOf(r);
      if s.Some? {
        states := states + [s.value];
      }
      i := i + 1;
    }
    assert rs[..i] == rs;
  }

  /** How many times `x` occurs in `s` (list.count). */
  function Count(s: seq<State>, x: State): (n: nat)
    ensures n == multiset(s)[x]
  {
    if s == [] then 0
    else
      assert s == [s[0]] + s[1..];
      (if s[0] == x then 1 else 0) + Count(s[1..], x)
  }

  /** The narrative for a list of states; `calmPick` stands for the random choice among the calm texts. */
  function Aggregate(states: seq<State>, calmPick: nat): (text: string)
    ensures text == TurbulentText <==> Count(states, Unruhig) >= 2
    ensures text == ActiveText <==> Count(states, Unruhig) < 2 && Count(states, Aktiv) >= 2
    ensures text in CalmTexts <==> Count(states, Unruhig) < 2 && Count(states, Aktiv) < 2
  {
    if Count(states, Unruhig) >= 2 then TurbulentText
    else if Count(states, Aktiv) >= 2 then ActiveText
    else Choose(CalmTexts, calmPick)
  }

  /** Every calm text can be the one chosen. */
  lemma EveryCalmTextReachable(states: seq<State>, k: nat)
    requires Count(states, Unruhig) < 2 && Count(states, Aktiv) < 2
    requires k < |CalmTexts|
    ensures Aggregate(states, k) == CalmTexts[k]
  {
  }

  /** The narrative depends only on how many symbols are in each state, not on their order. */
  lemma AggregateIgnoresOrder(a: seq<State>, b: seq<State>, calmPick: nat)
    requires multiset(a) == multiset(b)
    ensures Aggregate(a, calmPick) == Aggregate(b, calmPick)
  {
  }

  /** Counting distributes over concatenation. */
  lemma {:induction false} StatesOfAppend(xs: seq<Response>, ys: seq<Response>)
    ensures StatesOf(xs + ys) == StatesOf(xs) + StatesOf(ys)
    decreases |ys|
  {
    if ys == [] {
      assert xs + ys == xs;
    } else {
      var ys' := ys[..|ys| - 1];
      assert (xs + ys)[..|xs + ys| - 1] == xs + ys';
      StatesOfAppend(xs, ys');
    }
  }

  /** A response that is skipped adds nothing, wherever it stands among the others. */
  lemma SkippedAddsNothing(xs: seq<Response>, r: Response, ys: seq<Response>)
    requires StateOf(r).None?
    ensures StatesOf(xs + [r] + ys) == StatesOf(xs + ys)
  {
    var withR := xs + [r];
    StatesOfAppend(withR, ys);
    StatesOfAppend(xs, [r]);
    assert StatesOf([r]) == [] by {
      assert [r][..0] == [];
    }
    assert StatesOf(withR) == StatesOf(xs);
    StatesOfAppend(xs, ys);
  }

  /** Two responses in the same state are enough to count twice. */
  lemma TwoOfAKind(rs: seq<Response>, i: nat, j: nat, x: State)
    requires i < j < |rs|
    requires StateOf(rs[i]) == Some(x) && StateOf(rs[j]) == Some(x)
    ensures Count(StatesOf(rs), x) >= 2
  {
    var a, b, c := rs[..i], rs[i + 1..j], rs[j + 1..];
    assert rs == a + [rs[i]] + b + [rs[j]] + c;
    StatesOfAppend(a + [rs[i]] + b + [rs[j]], c);
    StatesOfAppend(a + [rs[i]] + b, [rs[j]]);
    StatesOfAppend(a + [rs[i]], b);
    StatesOfAppend(a, [rs[i]]);
    assert StatesOf([rs[i]]) == [x] by { assert [rs[i]][..0] == []; }
    assert StatesOf([rs[j]]) == [x] by { assert [rs[j]][..0] == []; }
  }

  /** Two turbulent symbols decide the narrative, whatever the other symbols say. */
  lemma TwoTurbulentSymbols(fetch: string -> Response, i: nat, j: nat, calmPick: nat)
    requires i < j < |Symbols|
    requires StateOf(fetch(Symbols[i])) == Some(Unruhig) && StateOf(fetch(Symbols[j])) == Some(Unruhig)
    ensures Aggregate(StatesOf(Fetched(fetch)), calmPick) == TurbulentText
  {
    TwoOfAKind(Fetched(fetch), i, j, Unruhig);
  }

  /** The market summary of a push: collect the states, then reduce them. */
  method MarketContext(fetch: string -> Response, calmPick: nat) returns (text: string)
    ensures text == Aggregate(StatesOf(Fetched(fetch)), calmPick)
    ensures text == TurbulentText || text == ActiveText || text in CalmTexts
  {
    var states := CollectStates(fetch);
    text := Aggregate(states, calmPick);
  }
}
