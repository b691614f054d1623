/**
  The content store of the guide bot and the no-repeat rotation of a theme's items
  (the THEMES, CHALLENGES and QUOTES tables of bot.py and the selection step of auto_push).
 */
module Content {
  import opened Wrappers
  import opened Choice

  /** The theme names in the order the themes table lists them (the order of its keys). */
  const ThemeNames: seq<string> := ["Mindset", "Lernen", "Reflexion"]

  const Themes: map<string, seq<string>> := map[
    "Mindset" := [
      "Geduld ist eine aktive Entscheidung.",
      "Disziplin zeigt sich im Nicht-Handeln.",
      "Abstand bringt Klarheit.",
      "Nicht jeder Impuls ist relevant."
    ],
    "Lernen" := [
      "Beobachtung kommt vor Handlung.",
      "Struktur schlägt Intuition.",
      "Wiederholung schärft Wahrnehmung.",
      "Verstehen braucht Zeit."
    ],
    "Reflexion" := [
      "Was hast du heute bewusst ausgelassen?",
      "Welche Emotion war präsent?",
      "Wo war Zurückhaltung sinnvoll?",
      "Was hast du über dich gelernt?"
    ]
  ]

  const Challenges: map<string, seq<string>> := map[
    "Mindset" := [
      "📝 Notiere eine Situation, in der du bewusst nichts getan hast.",
      "🧘‍♂️ Atme 3 Minuten ruhig und beobachte Gedanken."
    ],
    "Lernen" := [
      "👀 Beobachte den Markt 20 Minuten ohne Aktion.",
      "📚 Analysiere ein sauberes Marktverhalten."
    ],
    "Reflexion" := [
      "💭 Welche Emotion dominierte heute?",
      "🖋️ Notiere einen klaren Moment des Tages."
    ]
  ]

  const Quotes: seq<string> := [
    "Klarheit entsteht durch Beobachtung, nicht Aktion.",
    "Geduld ist die wichtigste Entscheidung des Tages.",
    "Nicht jeder Impuls muss verfolgt werden.",
    "Wissen kommt durch Beobachtung, nicht Eile."
  ]

  /** The names list and the themes table agree, and every theme has items to rotate. */
  lemma ThemeTablesAgree()
    ensures forall t :: t in ThemeNames <==> t in Themes
    ensures forall t :: t in Themes ==> |Themes[t]| > 0
  {
  }

  /** The challenges of a theme, or none when the theme has no entry (CHALLENGES.get(theme, [])). */
  function ChallengesOf(theme: string): (cs: seq<string>)
    ensures theme in Themes ==> |cs| > 0
    ensures forall c :: c in cs ==> theme in Challenges && c in Challenges[theme]
  {
    if theme in Challenges then Challenges[theme] else []
  }

  /** The draw of a challenge cannot fail: every theme has at least one. */
  lemma EveryThemeHasChallenges(theme: string)
    requires theme in Themes
    ensures |ChallengesOf(theme)| > 0
  {
  }

  /** The items of a theme other than the one sent last, in their order. */
  function Options(items: seq<string>, last: Option<string>): (r: seq<string>)
    ensures forall c :: c in r <==> c in items && Some(c) != last
    ensures last.None? ==> r == items
    ensures |r| <= |items|
  {
    if items == [] then []
    else (if Some(items[0]) != last then [items[0]] else []) + Options(items[1..], last)
  }

  /** What the draw is made from: the other items, or the whole theme when there are none. */
  function Pool(items: seq<string>, last: Option<string>): (pool: seq<string>)
    requires |items| > 0
    ensures |pool| > 0
    ensures forall c :: c in pool ==> c in items
    ensures (exists x :: x in items && Some(x) != last) ==> forall c :: c in pool ==> Some(c) != last
  {
    var options := Options(items, last);
    if options != [] then options else items
  }

  /** The item sent next for a theme whose last item was `last`: a member of the theme, and a
      different one from `last` exactly when the theme has a different one to offer. */
  function NextContent(items: seq<string>, last: Option<string>, pick: nat): (c: string)
    requires |items| > 0
    ensures c in items
    ensures (exists x :: x in items && Some(x) != last) <==> Some(c) != last
  {
    Choose(Pool(items, last), pick)
  }

  /** The filter takes nothing away but the last item: each other item can be drawn. */
  lemma EveryOptionReachable(items: seq<string>, last: Option<string>, c: string)
    requires c in items && Some(c) != last
    ensures exists pick: nat :: NextContent(items, last, pick) == c
  {
    var pool := Pool(items, last);
    var k :| 0 <= k < |pool| && pool[k] == c;
    assert NextContent(items, last, k) == c;
  }

  /** With the source's themes, which all have distinct items, no theme ever repeats its last item. */
  lemma SourceThemesNeverRepeat(theme: string, last: Option<string>, pick: nat)
    requires theme in Themes
    ensures Some(NextContent(Themes[theme], last, pick)) != last
  {
  }
}
