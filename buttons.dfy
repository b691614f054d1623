/**
  The reply to a menu button press (button_handler in bot.py): the button's callback data
  selects one of three static texts that replaces the message; any other data leaves it as it is.
 */
module Buttons {
  import opened Wrappers

  const TextMarkt: string :=
    "📊 *Marktlogik*\n\nMärkte bewegen sich nicht wegen Meinungen,\nsondern wegen Struktur und Verhalten."
  const TextMindset: string :=
    "🧠 *Denkweise*\n\nNicht jede Bewegung verlangt Aktion.\nKlarheit entsteht durch Zurückhaltung."
  const TextWas: string :=
    "🔍 *Was ist Investalo?*\n\nEine Finanzplattform für ruhige Marktbeobachtung,\nmentale Klarheit und saubere Entscheidungen."

  /** The callback data the menu's three text buttons carry (the fourth button is a link). */
  const MenuCallbacks: seq<string> := ["markt", "mindset", "was"]

  /** The text the message is edited to, or None when the press edits nothing. */
  function Reply(data: string): (edit: Option<string>)
    ensures edit == Some(TextMarkt) <==> data == "markt"
    ensures edit == Some(TextMindset) <==> data == "mindset"
    ensures edit == Some(TextWas) <==> data == "was"
    ensures edit == None <==> data !in MenuCallbacks
  {
    if data == "markt" then Some(TextMarkt)
    else if data == "mindset" then Some(TextMindset)
    else if data == "was" then Some(TextWas)
    else None
  }

  /** Every text button of the menu gets an answer, and different buttons get different texts. */
  lemma MenuButtonsAnswered()
    ensures forall i :: 0 <= i < |MenuCallbacks| ==> Reply(MenuCallbacks[i]).Some?
    ensures forall i, j :: 0 <= i < j < |MenuCallbacks| ==> Reply(MenuCallbacks[i]) != Reply(MenuCallbacks[j])
  {
  }
}
