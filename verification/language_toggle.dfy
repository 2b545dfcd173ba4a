/** The language toggle button: it switches Portuguese to English and
    anything else to Portuguese, and its label names the language it switches
    to. */
module LanguageToggle {
  import Strings
  import opened Wrappers
  import opened LanguageContext

  /** The language the button switches to. */
  function Toggle(language: string): (target: string)
    ensures target == "en" || target == "pt"
    ensures target == "en" <==> language == "pt"
  {
    if language == "pt" then "en" else "pt"
  }

  /** The button's label: the code, in capitals, of the language a click
      switches to. */
  function Label(language: string): (caption: string)
    ensures caption == Strings.Upper(Toggle(language))
    ensures caption == "EN" <==> language == "pt"
  {
    if language == "pt" then "EN" else "PT"
  }

  /** Toggling twice restores English and Portuguese, and turns any other
      stored value into English: `fr` goes to `pt` and then to `en`. */
  lemma ToggleTwice(language: string)
    ensures language == "en" || language == "pt" ==> Toggle(Toggle(language)) == language
    ensures language != "en" && language != "pt" ==> Toggle(Toggle(language)) == "en"
  {
  }

  /** Clicking the button: a language change, so the saved preference follows. */
  function Click(p: Provider): (q: Provider)
    ensures q.language == Toggle(p.language)
    ensures Persisted(q)
  {
    ChangeLanguage(p, Toggle(p.language))
  }

  /** Two clicks on a provider whose saved preference is English or Portuguese
      restore its whole state. */
  lemma ClickTwice(p: Provider)
    requires Persisted(p)
    requires p.language == "en" || p.language == "pt"
    ensures Click(Click(p)) == p
  {
  }

  /** The label as the rendered button shows it, reading the language through
      `useLanguage`, which raises outside a provider. */
  function Caption(context: Option<Provider>): (r: Result<string, string>)
    ensures r.Ok? <==> context.Some?
    ensures r.Err? ==> r == Err("useLanguage must be used within a LanguageProvider")
    ensures r.Ok? ==> r.value == Strings.Upper(Toggle(context.value.language))
  {
    var p :- UseLanguage(context);
    Ok(Label(p.language))
  }

  /** Pressing the rendered button: `useLanguage`, then a click. */
  function Press(context: Option<Provider>): (r: Result<Provider, string>)
    ensures r.Ok? <==> context.Some?
    ensures r.Err? ==> r == Err("useLanguage must be used within a LanguageProvider")
    ensures r.Ok? ==> r.value.language == Toggle(context.value.language) && Persisted(r.value)
  {
    var p :- UseLanguage(context);
    Ok(Click(p))
  }

  /** After a press the button offers the language it was showing before:
      for English or Portuguese, the caption after the press is the previous
      language's code, and a second press restores the whole state. */
  lemma PressOffersWayBack(p: Provider)
    requires Persisted(p)
    requires p.language == "en" || p.language == "pt"
    ensures Press(Some(p)).Ok?
    ensures Caption(Some(Press(Some(p)).value)) == Ok(Strings.Upper(p.language))
    ensures Press(Some(Press(Some(p)).value)) == Ok(p)
  {
    ToggleTwice(p.language);
    ClickTwice(p);
  }
}
