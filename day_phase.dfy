/**
  Time-of-day bucketing of the guide bot (get_day_phase and get_day_phase_emoji
  in bot.py). The wall clock is not read here: the hour is a parameter.
 */
module DayPhase {

  /** Every label the bucketing can produce. */
  const Labels: seq<string> := ["Morgen", "Vormittag", "Mittag", "Nachmittag", "Abend", "Nacht"]

  /** The fixed table of half-open hour intervals [lo, hi) and their labels;
      an hour in none of them is "Nacht". */
  const Table: seq<(int, int, string)> := [
    (6, 9, "Morgen"),
    (9, 12, "Vormittag"),
    (12, 15, "Mittag"),
    (15, 18, "Nachmittag"),
    (18, 21, "Abend")
  ]

  /** The label of an hour (0..23 when it comes from a clock; any other value is "Nacht"). */
  function Phase(hour: int): (p: string)
    ensures p in Labels
    ensures p == "Nacht" <==> hour < 6 || 21 <= hour
  {
    if 6 <= hour < 9 then "Morgen"
    else if 9 <= hour < 12 then "Vormittag"
    else if 12 <= hour < 15 then "Mittag"
    else if 15 <= hour < 18 then "Nachmittag"
    else if 18 <= hour < 21 then "Abend"
    else "Nacht"
  }

  /** The emoji shown before a phase label; "" for a string that is not a label. */
  function Emoji(phase: string): (e: string)
    ensures e != "" <==> phase in Labels
  {
    match phase
    case "Morgen" => "☀️"
    case "Vormittag" => "🌤️"
    case "Mittag" => "☀️"
    case "Nachmittag" => "🌤️"
    case "Abend" => "🌙"
    case "Nacht" => "🧭"
    case _ => ""
  }

  /** The time line of a push: the phase's emoji, a blank, the phase. */
  function TimeLine(hour: int): (line: string)
    ensures exists e :: e != "" && line == e + " " + Phase(hour)
  {
    var phase := Phase(hour);
    EveryPhaseHasEmoji(hour);
    Emoji(phase) + " " + phase
  }

  /** Each row of the table is exactly the set of hours that get its label. */
  lemma PhaseFollowsTable(hour: int, i: nat)
    requires i < |Table|
    ensures Phase(hour) == Table[i].2 <==> Table[i].0 <= hour < Table[i].1
  {
  }

  /** The bucketing is total on a clock's hours: every hour 0..23 gets one label, and the
      boundaries fall where the table puts them. */
  lemma PhaseBoundaries()
    ensures forall h :: 0 <= h < 24 ==> Phase(h) in Labels
    ensures Phase(5) == "Nacht" && Phase(6) == "Morgen" && Phase(8) == "Morgen"
    ensures Phase(9) == "Vormittag" && Phase(12) == "Mittag" && Phase(15) == "Nachmittag"
    ensures Phase(18) == "Abend" && Phase(20) == "Abend" && Phase(21) == "Nacht" && Phase(23) == "Nacht"
  {
  }

  /** Whatever the hour, the label it gets has an emoji. */
  lemma EveryPhaseHasEmoji(hour: int)
    ensures Emoji(Phase(hour)) != ""
  {
  }
}
