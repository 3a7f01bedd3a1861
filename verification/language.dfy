/**
 The language context: the supported languages, the translation tables, the
 lookup chain of `t`, and the saved-language restore.

 Browser storage is a map from keys to strings, passed in and returned.
 */
module Language {
  import opened Text

  datatype Language = Language(code: string, name: string, nativeName: string, flag: string)

  type Table = map<string, string>

  const SupportedLanguages: seq<Language> := [
    Language("en", "English", "English", "🇺🇸"),
    Language("es", "Spanish", "Español", "🇪🇸"),
    Language("fr", "French", "Français", "🇫🇷"),
    Language("de", "German", "Deutsch", "🇩🇪"),
    Language("pt", "Portuguese", "Português", "🇵🇹"),
    Language("ar", "Arabic", "العربية", "🇸🇦"),
    Language("zh", "Chinese", "中文", "🇨🇳"),
    Language("hi", "Hindi", "हिन्दी", "🇮🇳"),
    Language("ru", "Russian", "Русский", "🇷🇺"),
    Language("ja", "Japanese", "日本語", "🇯🇵")
  ]

  const EnTable: Table := map[
    "nav.home" := "Home",
    "nav.guide" := "AI Guide",
    "nav.travel" := "Travel",
    "nav.maps" := "Maps",
    "nav.profile" := "Profile",
    "nav.login" := "Sign In",
    "nav.logout" := "Sign Out",
    "hero.title" := "Your AI-Powered Immigration Companion",
    "hero.subtitle" := "Navigate the world with confidence using our intelligent guide for safe and legal relocation",
    "hero.cta" := "Start Your Journey",
    "hero.demo" := "Watch Demo",
    "features.guide.title" := "AI Immigration Guide",
    "features.guide.desc" := "Get personalized visa and immigration advice powered by advanced AI",
    "features.travel.title" := "Travel Services",
    "features.travel.desc" := "Book flights, hotels, and transportation with immigration-friendly options",
    "features.maps.title" := "Smart Navigation",
    "features.maps.desc" := "Navigate airports, cities, and landmarks with step-by-step guidance",
    "features.community.title" := "Global Community",
    "features.community.desc" := "Connect with fellow immigrants and share experiences",
    "guide.title" := "AI Immigration Guide",
    "guide.placeholder" := "Ask me anything about immigration, visas, or travel...",
    "guide.send" := "Send",
    "guide.listening" := "Listening...",
    "guide.speak" := "Speak",
    "guide.stop" := "Stop",
    "common.loading" := "Loading...",
    "common.error" := "Something went wrong. Please try again."
  ]

  const EsTable: Table := map[
    "nav.home" := "Inicio",
    "nav.guide" := "Guía IA",
    "nav.travel" := "Viajes",
    "nav.maps" := "Mapas",
    "nav.profile" := "Perfil",
    "nav.login" := "Iniciar Sesión",
    "nav.logout" := "Cerrar Sesión",
    "hero.title" := "Tu Compañero de Inmigración con IA",
    "hero.subtitle" := "Navega por el mundo con confianza usando nuestra guía inteligente para reubicación segura y legal",
    "hero.cta" := "Comienza Tu Viaje",
    "hero.demo" := "Ver Demo",
    "features.guide.title" := "Guía de Inmigración IA",
    "features.guide.desc" := "Obtén consejos personalizados sobre visas e inmigración con IA avanzada",
    "features.travel.title" := "Servicios de Viaje",
    "features.travel.desc" := "Reserva vuelos, hoteles y transporte con opciones amigables para inmigrantes",
    "features.maps.title" := "Navegación Inteligente",
    "features.maps.desc" := "Navega por aeropuertos, ciudades y puntos de referencia con guía paso a paso",
    "features.community.title" := "Comunidad Global",
    "features.community.desc" := "Conéctate con otros inmigrantes y comparte experiencias",
    "guide.title" := "Guía de Inmigración IA",
    "guide.placeholder" := "Pregúntame cualquier cosa sobre inmigración, visas o viajes...",
    "guide.send" := "Enviar",
    "guide.listening" := "Escuchando...",
    "guide.speak" := "Hablar",
    "guide.stop" := "Parar",
    "common.loading" := "Cargando...",
    "common.error" := "Algo salió mal. Por favor, inténtalo de nuevo."
  ]

  /** The storage key under which the chosen language code is kept. */
  const LanguageKey: string := "movesmart_language"

  /** `translations[code]`: only English and Spanish have a table. */
  function TableFor(code: string): Option<Table> {
    if code == "en" then Some(EnTable) else if code == "es" then Some(EsTable) else None
  }

  /** An entry that is present and non-empty (a truthy lookup). */
  predicate HasText(table: Table, key: string) {
    key in table && table[key] != ""
  }

  /**
   `t(key)` under the language `code`: the language's own entry, else the
   English entry, else the key itself. An empty entry counts as missing.
   */
  function T(code: string, key: string): (r: string)
    ensures TableFor(code).Some? && HasText(TableFor(code).value, key) ==> r == TableFor(code).value[key]
    ensures !(TableFor(code).Some? && HasText(TableFor(code).value, key)) && HasText(EnTable, key) ==> r == EnTable[key]
    ensures r == key || (key in EnTable && r == EnTable[key]) || (key in EsTable && r == EsTable[key])
  {
    if TableFor(code).Some? && HasText(TableFor(code).value, key) then TableFor(code).value[key]
    else if HasText(EnTable, key) then EnTable[key]
    else key
  }

  /** Every entry of both tables is non-empty. */
  lemma TablesHaveText()
    ensures forall k :: k in EnTable ==> EnTable[k] != ""
    ensures forall k :: k in EsTable ==> EsTable[k] != ""
  {
  }

  /** The two tables define the same keys. */
  lemma TablesShareKeys()
    ensures EnTable.Keys == EsTable.Keys
  {
  }

  /** A supported language without a table translates exactly as English does. */
  lemma TablelessIsEnglish(code: string, key: string)
    requires code != "en" && code != "es"
    ensures T(code, key) == T("en", key)
  {
  }

  /** Every key of the English table has its Spanish text under "es". */
  lemma SpanishCoversEnglish(key: string)
    requires key in EnTable
    ensures T("es", key) == EsTable[key]
  {
    TablesShareKeys();
    TablesHaveText();
  }

  /** A key that no table defines comes back unchanged, whatever the language. */
  lemma UnknownKeyIsItself(code: string, key: string)
    requires key !in EnTable
    ensures T(code, key) == key
  {
    TablesShareKeys();
  }

  /** The supported language codes are pairwise distinct. */
  lemma CodesDistinct()
    ensures |SupportedLanguages| == 10
    ensures forall i, j :: 0 <= i < j < |SupportedLanguages| ==> SupportedLanguages[i].code != SupportedLanguages[j].code
  {
  }

  /** `SUPPORTED_LANGUAGES.find(lang => lang.code === code)`. */
  function FindLanguage(languages: seq<Language>, code: string): (r: Option<Language>)
    ensures r.Some? ==> r.value in languages && r.value.code == code
    ensures r.None? <==> forall l :: l in languages ==> l.code != code
    ensures r.Some? ==> exists i :: 0 <= i < |languages| && languages[i] == r.value
                                    && forall j :: 0 <= j < i ==> languages[j].code != code
  {
    if languages == [] then None
    else if languages[0].code == code then Some(languages[0])
    else
      var r := FindLanguage(languages[1..], code);
      assert forall j :: 0 < j < |languages| ==> languages[j] == languages[1..][j - 1];
      r
  }

  /** The language the provider starts with. */
  const InitialLanguage: Language := SupportedLanguages[0]

  /**
   The mount-time restore: a saved code that is non-empty and names a
   supported language selects it; anything else keeps the initial language.
   */
  function RestoreLanguage(storage: map<string, string>): (r: Language)
    ensures r in SupportedLanguages
    ensures (LanguageKey in storage && FindLanguage(SupportedLanguages, storage[LanguageKey]).Some?) ==>
              r.code == storage[LanguageKey]
    ensures (LanguageKey !in storage || forall l :: l in SupportedLanguages ==> l.code != storage[LanguageKey]) ==>
              r == InitialLanguage
  {
    if LanguageKey in storage && storage[LanguageKey] != "" then
      match FindLanguage(SupportedLanguages, storage[LanguageKey])
      case Some(l) => l
      case None => InitialLanguage
    else InitialLanguage
  }

  /** The provider's state: the current language and the browser storage. */
  datatype LanguageState = LanguageState(current: Language, storage: map<string, string>)

  /** `setLanguage`: switch to the language and save its code. */
  function SetLanguage(state: LanguageState, language: Language): (r: LanguageState)
    ensures r.current == language
    ensures r.storage.Keys == state.storage.Keys + {LanguageKey}
    ensures r.storage[LanguageKey] == language.code
    ensures forall k :: k in state.storage && k != LanguageKey ==> r.storage[k] == state.storage[k]
  {
    LanguageState(language, state.storage[LanguageKey := language.code])
  }

  /** The initial language is English. */
  lemma InitialIsEnglish()
    ensures InitialLanguage.code == "en"
  {
  }

  /** Round trip: after choosing a supported language, a later restore selects it again. */
  lemma RestoreAfterSet(state: LanguageState, language: Language)
    requires language in SupportedLanguages
    ensures RestoreLanguage(SetLanguage(state, language).storage) == language
  {
    CodesDistinct();
    var storage := SetLanguage(state, language).storage;
    var found := FindLanguage(SupportedLanguages, language.code);
    assert found.Some?;
    var i :| 0 <= i < |SupportedLanguages| && SupportedLanguages[i] == language;
    var k :| 0 <= k < |SupportedLanguages| && SupportedLanguages[k] == found.value;
    assert i == k;
  }
}
