/**
 * The language switch button. It keeps no state of its own: a press computes
 * the other language and hands it to the `setCurrentLang` callback, once.
 */
module LanguageSwitcher {

  /** `currentLang === 'de' ? 'en' : 'de'`: the one value passed to `setCurrentLang`. */
  function ToggleLanguage(currentLang: string): (r: string)
    ensures r == "en" <==> currentLang == "de"
    ensures r == "de" <==> currentLang != "de"
  {
    if currentLang == "de" then "en" else "de"
  }

  /** The button shows the language a press switches to. */
  function ButtonLabel(currentLang: string): (r: string)
    ensures r == "EN" <==> currentLang == "de"
    ensures r == "DE" <==> currentLang != "de"
  {
    if currentLang == "de" then "EN" else "DE"
  }

  /** On {de, en}, pressing twice restores the language; any other value becomes "de" and then "en". */
  lemma ToggleTwice(lang: string)
    ensures lang == "de" || lang == "en" ==> ToggleLanguage(ToggleLanguage(lang)) == lang
    ensures lang != "de" && lang != "en" ==> ToggleLanguage(ToggleLanguage(lang)) == "en"
  {
  }

  /** The label names the language the toggle selects, in upper case. */
  lemma LabelNamesTarget(lang: string)
    ensures ButtonLabel(lang) == (if ToggleLanguage(lang) == "en" then "EN" else "DE")
  {
  }
}
