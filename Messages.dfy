/**
 * The chat log of the text-processing view: the message records, the
 * language table, and the pure list and map updates the handlers hand to
 * `setMessages` and `setShowDropdown`.
 */
module Messages {
  import opened Wrappers
  import opened JsString

  /** Messages are keyed by the `Date.now()` value taken when they were sent. */
  type MessageId = int

  /** The supported languages: code to display name. */
  const LanguageMap: map<string, string> :=
    map["en" := "English", "es" := "Spanish", "fr" := "French",
        "pt" := "Portuguese", "ru" := "Russian", "tr" := "Turkish"]

  /**
   * `languageMap[code] || code`: a missing entry reads as `undefined`, which
   * is falsy, so the raw code is shown instead.
   */
  function DisplayName(code: string): (name: string)
    ensures code in LanguageMap ==> name == LanguageMap[code]
    ensures code !in LanguageMap ==> name == code
    ensures name == "" <==> code == ""
  {
    var entry := if code in LanguageMap then LanguageMap[code] else "";
    if entry != "" then entry else code
  }

  /** The table holds the six supported codes, each with a non-empty name that is its display name. */
  lemma SupportedLanguages()
    ensures LanguageMap.Keys == {"en", "es", "fr", "pt", "ru", "tr"}
    ensures forall code <- LanguageMap.Keys :: LanguageMap[code] != "" && DisplayName(code) == LanguageMap[code]
  {
  }

  /** A detection result as the component stores it: code, display name, confidence. */
  datatype Language = Language(code: string, name: string, confidence: real)

  /**
   * One chat message. `translations` is keyed by target-language code; an
   * absent `translations` object reads as empty, as `msg.translations || {}` does.
   */
  datatype Message = Message(
    id: MessageId,
    text: string,
    pending: bool,
    language: Option<Language>,
    summary: Option<string>,
    translations: map<string, string>)

  /** The record appended when a text is sent, before detection answers. */
  function PendingMessage(id: MessageId, text: string): (m: Message)
    ensures m.id == id && m.text == text
    ensures m.pending && m.language.None? && m.summary.None? && m.translations == map[]
  {
    Message(id, text, true, None, None, map[])
  }

  /** `message.language?.code || 'auto'`: the source language handed to the translator. */
  function SourceLanguage(m: Message): (code: string)
    ensures code != ""
    ensures m.language.Some? && m.language.value.code != "" ==> code == m.language.value.code
    ensures m.language.None? || m.language.value.code == "" ==> code == "auto"
  {
    if m.language.Some? && m.language.value.code != "" then m.language.value.code else "auto"
  }

  /** `messages.find(msg => msg.id === id)`: the first message with that id, if any. */
  function Find(ms: seq<Message>, id: MessageId): (r: Option<Message>)
    ensures r.None? <==> forall i | 0 <= i < |ms| :: ms[i].id != id
    ensures r.Some? ==> r.value in ms && r.value.id == id
    ensures r.Some? ==> exists k | 0 <= k < |ms| :: ms[k] == r.value && forall j | 0 <= j < k :: ms[j].id != id
  {
    if ms == [] then None
    else if ms[0].id == id then Some(ms[0])
    else Find(ms[1..], id)
  }

  /**
   * `prev.map(msg => msg.id === id ? f(msg) : msg)`: every message with the
   * id is rewritten by `f`, every other one is kept, and the order and the
   * length of the log do not change.
   */
  function MapById(ms: seq<Message>, id: MessageId, f: Message -> Message): (r: seq<Message>)
    ensures |r| == |ms|
    ensures forall i | 0 <= i < |ms| :: r[i] == if ms[i].id == id then f(ms[i]) else ms[i]
  {
    if ms == [] then []
    else [if ms[0].id == id then f(ms[0]) else ms[0]] + MapById(ms[1..], id, f)
  }

  /** The settled record replaces the pending one that has its id. */
  function ReplaceById(ms: seq<Message>, id: MessageId, m: Message): (r: seq<Message>)
    ensures |r| == |ms|
    ensures forall i | 0 <= i < |ms| && ms[i].id == id :: r[i] == m
    ensures forall i | 0 <= i < |ms| && ms[i].id != id :: r[i] == ms[i]
  {
    MapById(ms, id, _ => m)
  }

  /** `{...msg, translations: {...(msg.translations || {}), [lang]: text}}` on the message with the id. */
  function AddTranslation(ms: seq<Message>, id: MessageId, lang: string, text: string): (r: seq<Message>)
    ensures |r| == |ms|
    ensures forall i | 0 <= i < |ms| && ms[i].id == id ::
              r[i].translations.Keys == ms[i].translations.Keys + {lang}
              && r[i].translations[lang] == text
              && (forall other | other in ms[i].translations && other != lang ::
                    r[i].translations[other] == ms[i].translations[other])
              && r[i] == ms[i].(translations := r[i].translations)
    ensures forall i | 0 <= i < |ms| && ms[i].id != id :: r[i] == ms[i]
  {
    MapById(ms, id, (m: Message) => m.(translations := m.translations[lang := text]))
  }

  /** `{...msg, summary}` on the message with the id. */
  function SetSummary(ms: seq<Message>, id: MessageId, summary: string): (r: seq<Message>)
    ensures |r| == |ms|
    ensures forall i | 0 <= i < |ms| && ms[i].id == id :: r[i] == ms[i].(summary := Some(summary))
    ensures forall i | 0 <= i < |ms| && ms[i].id != id :: r[i] == ms[i]
  {
    MapById(ms, id, (m: Message) => m.(summary := Some(summary)))
  }

  // ---------------------------------------------------------------------
  // What the log keeps across every handler

  /** No two messages share an id. */
  ghost predicate UniqueIds(ms: seq<Message>) {
    forall i, j | 0 <= i < j < |ms| :: ms[i].id != ms[j].id
  }

  /**
   * The log the handlers maintain: ids are unique, every text is non-blank,
   * and a message that is no longer pending carries its detected language
   * (which the view dereferences for every settled message).
   */
  ghost predicate WellFormed(ms: seq<Message>) {
    UniqueIds(ms)
    && forall m <- ms :: !IsBlank(m.text) && (!m.pending ==> m.language.Some?)
  }

  /** Two logs agree on every message's id, text, pending flag and language. */
  ghost predicate SameCore(a: seq<Message>, b: seq<Message>) {
    |a| == |b|
    && forall i | 0 <= i < |a| ::
         a[i].id == b[i].id && a[i].text == b[i].text
         && a[i].pending == b[i].pending && a[i].language == b[i].language
  }

  /**
   * `later` is what `earlier` may become: no message is removed or moved,
   * no text changes, and a settled message stays settled with its language.
   */
  ghost predicate Evolves(earlier: seq<Message>, later: seq<Message>) {
    |earlier| <= |later|
    && forall i | 0 <= i < |earlier| ::
         later[i].id == earlier[i].id && later[i].text == earlier[i].text
         && (!earlier[i].pending ==> !later[i].pending && later[i].language == earlier[i].language)
  }

  /** The evolution of the log composes across handlers. */
  lemma EvolvesTransitive(a: seq<Message>, b: seq<Message>, c: seq<Message>)
    requires Evolves(a, b) && Evolves(b, c)
    ensures Evolves(a, c)
  {
  }

  /** With unique ids, `find` returns exactly the message that has the id. */
  lemma FindUnique(ms: seq<Message>, k: nat)
    requires UniqueIds(ms) && k < |ms|
    ensures Find(ms, ms[k].id) == Some(ms[k])
  {
  }

  /** Mapping by id and then finding that id gives the rewritten first match. */
  lemma {:induction false} FindAfterMap(ms: seq<Message>, id: MessageId, f: Message -> Message)
    requires forall m :: f(m).id == m.id
    ensures Find(MapById(ms, id, f), id) == if Find(ms, id).Some? then Some(f(Find(ms, id).value)) else None
  {
    if ms != [] && ms[0].id != id {
      assert MapById(ms, id, f)[1..] == MapById(ms[1..], id, f);
      FindAfterMap(ms[1..], id, f);
    }
  }

  /** With unique ids, replacing by id rewrites exactly the one message that has it. */
  lemma ReplaceByIdAt(ms: seq<Message>, k: nat, m: Message)
    requires UniqueIds(ms) && k < |ms|
    ensures ReplaceById(ms, ms[k].id, m) == ms[k := m]
  {
  }

  /** Translating twice into the same language keeps only the second text. */
  lemma TranslationOverwrites(ms: seq<Message>, id: MessageId, lang: string, first: string, second: string)
    ensures AddTranslation(AddTranslation(ms, id, lang, first), id, lang, second)
         == AddTranslation(ms, id, lang, second)
  {
    var once := AddTranslation(ms, id, lang, first);
    var twice := AddTranslation(once, id, lang, second);
    var direct := AddTranslation(ms, id, lang, second);
    forall i | 0 <= i < |ms| ensures twice[i] == direct[i] {
      if ms[i].id == id {
        assert ms[i].translations[lang := first][lang := second] == ms[i].translations[lang := second];
      }
    }
  }

  /**
   * Reading back a translation gives the text just stored under that
   * language; every other language of the message, and the rest of it, is
   * as it was.
   */
  lemma TranslationReadBack(ms: seq<Message>, id: MessageId, lang: string, text: string)
    requires Find(ms, id).Some?
    ensures var m := Find(ms, id).value;
            var m' := Find(AddTranslation(ms, id, lang, text), id).value;
            Find(AddTranslation(ms, id, lang, text), id).Some?
            && lang in m'.translations && m'.translations[lang] == text
            && (forall other | other in m.translations && other != lang ::
                  other in m'.translations && m'.translations[other] == m.translations[other])
            && m'.translations.Keys == m.translations.Keys + {lang}
            && m' == m.(translations := m'.translations)
  {
    FindAfterMap(ms, id, (m: Message) => m.(translations := m.translations[lang := text]));
  }

  /** Reading back the summary gives the text just stored; the rest of the message is as it was. */
  lemma SummaryReadBack(ms: seq<Message>, id: MessageId, summary: string)
    requires Find(ms, id).Some?
    ensures Find(SetSummary(ms, id, summary), id) == Some(Find(ms, id).value.(summary := Some(summary)))
  {
  }

  /** Storing a translation touches no id, text, pending flag or language. */
  lemma TranslationKeepsCore(ms: seq<Message>, id: MessageId, lang: string, text: string)
    ensures SameCore(ms, AddTranslation(ms, id, lang, text))
  {
  }

  /** Storing a summary touches no id, text, pending flag or language. */
  lemma SummaryKeepsCore(ms: seq<Message>, id: MessageId, summary: string)
    ensures SameCore(ms, SetSummary(ms, id, summary))
  {
  }

  /** Changing only summaries and translations keeps the log well formed and is an evolution. */
  lemma SameCoreKeepsWellFormed(a: seq<Message>, b: seq<Message>)
    requires WellFormed(a) && SameCore(a, b)
    ensures WellFormed(b) && Evolves(a, b)
  {
  }

  /** Appending a pending message with a fresh id and a non-blank text keeps the log well formed. */
  lemma AppendKeepsWellFormed(ms: seq<Message>, id: MessageId, text: string)
    requires WellFormed(ms)
    requires forall m <- ms :: m.id != id
    requires !IsBlank(text)
    ensures WellFormed(ms + [PendingMessage(id, text)])
    ensures Evolves(ms, ms + [PendingMessage(id, text)])
  {
  }

  /**
   * Settling the last message in place: the result is well formed when the
   * new record keeps the id and text, and carries a language if it is settled.
   */
  lemma SettleLastKeepsWellFormed(ms: seq<Message>, m: Message)
    requires WellFormed(ms) && ms != []
    requires m.id == ms[|ms| - 1].id && m.text == ms[|ms| - 1].text
    requires !m.pending ==> m.language.Some?
    ensures ReplaceById(ms, m.id, m) == ms[..|ms| - 1] + [m]
    ensures WellFormed(ms[..|ms| - 1] + [m])
    ensures Evolves(ms[..|ms| - 1], ms[..|ms| - 1] + [m])
  {
  }

  // ---------------------------------------------------------------------
  // The per-message dropdown flags (`showDropdown`)

  /** `showDropdown[id]` read as a condition: a missing entry is `undefined`, i.e. hidden. */
  predicate Shown(d: map<MessageId, bool>, id: MessageId) {
    id in d && d[id]
  }

  /** `{...prev, [id]: !prev[id]}`: flips one message's dropdown and no other. */
  function Toggled(d: map<MessageId, bool>, id: MessageId): (r: map<MessageId, bool>)
    ensures Shown(r, id) <==> !Shown(d, id)
    ensures forall k | k != id :: Shown(r, k) == Shown(d, k)
    ensures r.Keys == d.Keys + {id}
  {
    d[id := !Shown(d, id)]
  }

  /** `{...prev, [id]: false}`: hides one message's dropdown and no other. */
  function Hidden(d: map<MessageId, bool>, id: MessageId): (r: map<MessageId, bool>)
    ensures !Shown(r, id)
    ensures forall k | k != id :: Shown(r, k) == Shown(d, k)
  {
    d[id := false]
  }

  /** Toggling twice restores every message's visibility. */
  lemma ToggleTwice(d: map<MessageId, bool>, id: MessageId)
    ensures forall k :: Shown(Toggled(Toggled(d, id), id), k) == Shown(d, k)
  {
  }
}
