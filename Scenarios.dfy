/**
 * Short sessions driven through the handlers' contracts alone, showing
 * consequences that take more than one event.
 */
module Scenarios {
  import opened Wrappers
  import opened JsString
  import opened Messages
  import opened Providers
  import opened TextProcessing

  /**
   * Nothing stops a second send after a failed detection, and a failed
   * detection never settles its message: two messages end up pending at once.
   */
  method FailedDetectionsStayPending() returns (log: seq<Message>)
    ensures |log| == 2 && log[0].pending && log[1].pending
    ensures log[0].text == "Bonjour" && log[1].text == "Hola"
  {
    var view := new Component();
    view.EditInput("Bonjour");
    assert !IsWhite("Bonjour"[0]);
    view.SendMessage(1, _ => Failed, _ => SummaryFailed);
    view.EditInput("Hola");
    assert !IsWhite("Hola"[0]);
    view.SendMessage(2, _ => Failed, _ => SummaryFailed);
    log := view.messages;
  }

  /** Translating one message into French twice leaves only the second French text. */
  method RetranslationKeepsLast() returns (translations: map<string, string>)
    ensures translations == map["fr" := "Salut"]
  {
    var view := new Component();
    view.EditInput("Hello");
    assert !IsWhite("Hello"[0]);
    view.SendMessage(1, _ => Ok(Detection("en", 0.9)), _ => SummaryFailed);
    ghost var sent := view.messages;
    assert |sent| == 1 && sent[0].id == 1 && sent[0].text == "Hello" && sent[0].translations == map[];
    FindUnique(sent, 0);
    view.Translate(1, "fr", (_, _, _) => Ok("Bonjour"));
    assert view.messages == AddTranslation(sent, 1, "fr", "Bonjour");
    ghost var once := view.messages;
    assert |once| == 1 && once[0].id == 1 && once[0].text == "Hello";
    FindUnique(once, 0);
    view.Translate(1, "fr", (_, _, _) => Ok("Salut"));
    assert view.messages == AddTranslation(once, 1, "fr", "Salut");
    TranslationOverwrites(sent, 1, "fr", "Bonjour", "Salut");
    assert view.messages == AddTranslation(sent, 1, "fr", "Salut");
    translations := view.messages[0].translations;
  }

  /** A 151-character text is summarized on sending when it is English, and not when it is Spanish. */
  method AutoSummaryIsEnglishOnly() returns (english: Option<string>, spanish: Option<string>)
    ensures english == Some("key points") && spanish == None
  {
    var long := seq(151, _ => 'a');
    assert !IsWhite(long[0]);
    var view := new Component();
    view.EditInput(long);
    view.SendMessage(1, _ => Ok(Detection("en", 0.9)), _ => Produced("key points"));
    english := view.messages[0].summary;
    view.EditInput(long);
    view.SendMessage(2, _ => Ok(Detection("es", 0.9)), _ => Produced("puntos clave"));
    spanish := view.messages[1].summary;
  }

  /**
   * `length` counts UTF-16 code units: 76 emoji are 152 units, so an English
   * text of 76 emoji is summarized on sending.
   */
  method AstralTextCountsDouble() returns (summary: Option<string>)
    ensures summary == Some("smiles")
  {
    var smiles := seq(76, _ => '\U{1F600}');
    assert !IsWhite(smiles[0]);
    assert Utf16Length(smiles) == 152;
    var view := new Component();
    view.EditInput(smiles);
    view.SendMessage(1, _ => Ok(Detection("en", 0.9)), _ => Produced("smiles"));
    summary := view.messages[0].summary;
  }
}
