/**
  The scheduled push of the guide bot (auto_push in bot.py): the rotation state kept across
  pushes, the selection that updates it, and the assembly of the message text.
  The random draws, the clock's hour and the quote provider are parameters; sending the
  text to the recipients is not part of this model.
 */
module Guide {
  import opened Wrappers
  import opened Choice
  import DayPhase
  import opened Market
  import opened Content

  const SiteUrl: string := "https://investalo.de"
  const GuideHeader: string := "👤 *Investalo Guide*\n\n"
  const Footer: string := "Mehr auf: [investalo.de](" + SiteUrl + ")"

  /** The random draws of one push, each standing for a random index. */
  datatype Picks = Picks(theme: nat, content: nat, challenge: nat, quote: nat, calm: nat)

  /** The pieces of a push message, in the order they appear. */
  function MessageParts(timeLine: string, theme: string, content: string, marketText: string,
                        challenge: string, quote: string): (parts: seq<string>)
    ensures |parts| == 13 && parts[0] == GuideHeader && parts[12] == Footer
    ensures parts[1] == timeLine && parts[3] == theme && parts[5] == content
    ensures parts[6] == marketText && parts[8] == challenge && parts[10] == quote
  {
    [GuideHeader, timeLine, "\n📌 *Thema*: ", theme, "\n\n", content, marketText, "\n\n",
     challenge, "\n💡 ", quote, "\n\n", Footer]
  }

  /** The parts written one after the other. */
  function Concat(parts: seq<string>): (s: string)
  {
    if parts == [] then "" else parts[0] + Concat(parts[1..])
  }

  /** Where part `i` starts in the concatenation. */
  function Offset(parts: seq<string>, i: nat): nat
    requires i <= |parts|
  {
    |Concat(parts[..i])|
  }

  /** Splitting the part list splits the text. */
  lemma {:induction false} ConcatAppend(xs: seq<string>, ys: seq<string>)
    ensures Concat(xs + ys) == Concat(xs) + Concat(ys)
  {
    if xs == [] {
      assert xs + ys == ys;
    } else {
      assert (xs + ys)[1..] == xs[1..] + ys;
      ConcatAppend(xs[1..], ys);
    }
  }

  /** Part `i` sits in the text at its offset. */
  lemma PartAt(parts: seq<string>, i: nat)
    requires i < |parts|
    ensures Offset(parts, i) + |parts[i]| <= |Concat(parts)|
    ensures Concat(parts)[Offset(parts, i)..Offset(parts, i) + |parts[i]|] == parts[i]
  {
    assert parts == parts[..i] + ([parts[i]] + parts[i + 1..]);
    ConcatAppend(parts[..i], [parts[i]] + parts[i + 1..]);
    ConcatAppend([parts[i]], parts[i + 1..]);
    assert Concat([parts[i]]) == parts[i] + Concat([]);
  }

  /** A later part never starts before an earlier one ends. */
  lemma PartsInOrder(parts: seq<string>, i: nat, j: nat)
    requires i < j <= |parts|
    ensures Offset(parts, i) + |parts[i]| <= Offset(parts, j)
  {
    assert parts[..j] == parts[..i] + ([parts[i]] + parts[i + 1..j]);
    ConcatAppend(parts[..i], [parts[i]] + parts[i + 1..j]);
    ConcatAppend([parts[i]], parts[i + 1..j]);
    assert Concat([parts[i]]) == parts[i] + Concat([]);
  }

  /** The push message. */
  function Compose(timeLine: string, theme: string, content: string, marketText: string,
                   challenge: string, quote: string): (msg: string)
  {
    Concat(MessageParts(timeLine, theme, content, marketText, challenge, quote))
  }

  /** A concatenation opens with its first part and ends with its last. */
  lemma ConcatEnds(parts: seq<string>)
    requires |parts| > 0
    ensures |parts[0]| <= |Concat(parts)| && Concat(parts)[..|parts[0]|] == parts[0]
    ensures |parts[|parts| - 1]| <= |Concat(parts)|
    ensures Concat(parts)[|Concat(parts)| - |parts[|parts| - 1]|..] == parts[|parts| - 1]
  {
  }

  /** A concatenation holds every part at its offset, the parts in order. */
  lemma ConcatLayout(parts: seq<string>)
    ensures forall i :: 0 <= i < |parts| ==>
              Offset(parts, i) + |parts[i]| <= |Concat(parts)| &&
              Concat(parts)[Offset(parts, i)..Offset(parts, i) + |parts[i]|] == parts[i]
    ensures forall i, j :: 0 <= i < j < |parts| ==> Offset(parts, i) + |parts[i]| <= Offset(parts, j)
  {
    forall i | 0 <= i < |parts|
      ensures Offset(parts, i) + |parts[i]| <= |Concat(parts)|
      ensures Concat(parts)[Offset(parts, i)..Offset(parts, i) + |parts[i]|] == parts[i]
    {
      PartAt(parts, i);
    }
    forall i, j | 0 <= i < j < |parts|
      ensures Offset(parts, i) + |parts[i]| <= Offset(parts, j)
    {
      PartsInOrder(parts, i, j);
    }
  }

  /** The message opens with the guide header and ends with the site link. */
  lemma MessageEnds(timeLine: string, theme: string, content: string, marketText: string,
                    challenge: string, quote: string)
    ensures var msg := Compose(timeLine, theme, content, marketText, challenge, quote);
            && |GuideHeader| + |Footer| <= |msg|
            && msg[..|GuideHeader|] == GuideHeader
            && msg[|msg| - |Footer|..] == Footer
  {
    var parts := MessageParts(timeLine, theme, content, marketText, challenge, quote);
    ConcatEnds(parts);
    PartsInOrder(parts, 0, 12);
    PartAt(parts, 12);
  }

  /** Between header and link, the time line, the theme, the content, the market text, the
      challenge and the quote each sit at their offset in the message, in that order. */
  lemma MessageOrder(timeLine: string, theme: string, content: string, marketText: string,
                     challenge: string, quote: string)
    ensures var parts := MessageParts(timeLine, theme, content, marketText, challenge, quote);
            var msg := Compose(timeLine, theme, content, marketText, challenge, quote);
            && (forall i :: 0 <= i < |parts| ==>
                  Offset(parts, i) + |parts[i]| <= |msg| &&
                  msg[Offset(parts, i)..Offset(parts, i) + |parts[i]|] == parts[i])
            && (forall i, j :: 0 <= i < j < |parts| ==> Offset(parts, i) + |parts[i]| <= Offset(parts, j))
  {
    ConcatLayout(MessageParts(timeLine, theme, content, marketText, challenge, quote));
  }

  /** A rotation record fits the themes: every theme has an entry, and an item recorded for a
      theme is one of its items. */
  ghost predicate Consistent(record: map<string, Option<string>>)
  {
    && record.Keys == Themes.Keys
    && forall t :: t in record && record[t].Some? ==> record[t].value in Themes[t]
  }

  /** Recording one of a theme's items keeps a record consistent. */
  lemma RecordKeepsConsistent(record: map<string, Option<string>>, theme: string, content: string)
    requires Consistent(record) && theme in Themes && content in Themes[theme]
    ensures Consistent(record[theme := Some(content)])
  {
  }

  /** The bot's state across pushes: for each theme, the item it sent last (None before its first push). */
  class Bot {
    var lastSent: map<string, Option<string>>

    ghost predicate Valid()
      reads this
    {
      Consistent(lastSent)
    }

    /** At start-up no theme has sent anything. */
    constructor ()
      ensures Valid()
      ensures lastSent.Keys == Themes.Keys
      ensures forall t :: t in lastSent ==> lastSent[t] == None
    {
      lastSent := map t | t in Themes :: None;
    }

    /** Draw a theme, draw its next item avoiding the one sent last, and record it. */
    method Rotate(themePick: nat, contentPick: nat) returns (theme: string, content: string)
      requires Valid()
      modifies this
      ensures Valid()
      ensures theme == Choose(ThemeNames, themePick) && theme in Themes
      ensures content in Themes[theme]
      ensures content == NextContent(Themes[theme], old(lastSent[theme]), contentPick)
      ensures Some(content) != old(lastSent[theme])
      ensures lastSent == old(lastSent)[theme := Some(content)]
      ensures forall t :: t in lastSent && t != theme ==> lastSent[t] == old(lastSent[t])
    {
      theme := Choose(ThemeNames, themePick);
      ThemeTablesAgree();
      var last := lastSent[theme];
      content := NextContent(Themes[theme], last, contentPick);
      SourceThemesNeverRepeat(theme, last, contentPick);
      RecordKeepsConsistent(lastSent, theme, content);
      lastSent := lastSent[theme := Some(content)];
    }

    /** One scheduled push: rotate, draw a challenge and a quote, and assemble the message from
        the time line of `hour` and the market summary of what `fetch` returns. */
    method AutoPush(picks: Picks, hour: int, fetch: string -> Response)
      returns (theme: string, content: string, msg: string)
      requires Valid()
      modifies this
      ensures Valid()
      ensures theme == Choose(ThemeNames, picks.theme) && theme in Themes && content in Themes[theme]
      ensures content == NextContent(Themes[theme], old(lastSent[theme]), picks.content)
      ensures Some(content) != old(lastSent[theme])
      ensures lastSent == old(lastSent)[theme := Some(content)]
      ensures |ChallengesOf(theme)| > 0
      ensures msg == Compose(DayPhase.TimeLine(hour), theme, content,
                             MarketHeading + Aggregate(StatesOf(Fetched(fetch)), picks.calm),
                             Choose(ChallengesOf(theme), picks.challenge), Choose(Quotes, picks.quote))
    {
      theme, content := Rotate(picks.theme, picks.content);
      var challenges := ChallengesOf(theme);
      EveryThemeHasChallenges(theme);
      var challenge := Choose(challenges, picks.challenge);
      var quote := Choose(Quotes, picks.quote);
      var timeLine := DayPhase.TimeLine(hour);
      var context := MarketContext(fetch, picks.calm);
      msg := Compose(timeLine, theme, content, MarketHeading + context, challenge, quote);
    }
  }

  /** Two pushes in a row whose theme draws land on the same theme send two different items,
      whatever the state before them. */
  method TwoPushesSameTheme(bot: Bot, p1: nat, c1: nat, p2: nat, c2: nat) returns (a: string, b: string)
    requires bot.Valid()
    requires Choose(ThemeNames, p1) == Choose(ThemeNames, p2)
    modifies bot
    ensures a != b
  {
    var t1, t2;
    t1, a := bot.Rotate(p1, c1);
    t2, b := bot.Rotate(p2, c2);
  }
}
