/** The frontend's message catalogue (frontend/src/i18n/mod.rs): language codes and
    display names, a per-language `Translations` map built by successive `add` calls,
    the global table holding the Spanish, Portuguese and English catalogues, and the
    lookup with its fallback chain: the requested language, then English, then the key
    itself. The global table is initialised once and never written afterwards, so it
    is modelled as a constant. */
module I18n {
  import opened Prelude
  import opened Common

  /** `language_code` */
  function LanguageCode(l: Language): (code: string)
    ensures code == ToStr(l)
    ensures FromStr(code) == Ok(l)
  {
    FromStrOfToStr(l);
    match l
    case Spanish => "es"
    case Portuguese => "pt"
    case English => "en"
    case French => "fr"
    case German => "de"
    case Italian => "it"
    case Russian => "ru"
    case Chinese => "zh"
    case Japanese => "ja"
    case Korean => "ko"
  }

  /** `language_name`: each language's name for itself. */
  function LanguageName(l: Language): (name: string)
    ensures name != LanguageCode(l)
  {
    match l
    case Spanish => "Español"
    case Portuguese => "Português"
    case English => "English"
    case French => "Français"
    case German => "Deutsch"
    case Italian => "Italiano"
    case Russian => "Русский"
    case Chinese => "中文"
    case Japanese => "日本語"
    case Korean => "한국어"
  }

  /** The ten names are pairwise distinct. */
  lemma LanguageNamesDistinct(l: Language, m: Language)
    ensures LanguageName(l) == LanguageName(m) ==> l == m
  {
  }

  /** One language's catalogue. */
  class Translations {
    const language: Language
    var messages: map<string, string>

    /** `Translations::new` */
    constructor (language: Language)
      ensures this.language == language && messages == map[]
    {
      this.language := language;
      messages := map[];
    }

    /** `Translations::add`: inserts, overwriting an earlier value for the same key. */
    method Add(key: string, value: string)
      modifies this
      ensures messages == old(messages)[key := value]
      ensures Get(key) == Some(value)
      ensures forall k :: k != key ==> Get(k) == old(Get(k))
    {
      messages := messages[key := value];
    }

    /** `Translations::get` */
    function Get(key: string): (r: Option<string>)
      reads this
      ensures r.Some? <==> key in messages
      ensures r.Some? ==> r.value == messages[key]
    {
      if key in messages then Some(messages[key]) else None
    }
  }

  function SpanishMessages(): map<string, string> {
    map[
      "app.title" := "Kairos - Trazabilidad Agrícola",
      "auth.login" := "Iniciar Sesión",
      "auth.register" := "Registrarse",
      "auth.email" := "Correo Electrónico",
      "auth.password" := "Contraseña",
      "auth.full_name" := "Nombre Completo",
      "auth.farm_name" := "Nombre de la Finca",
      "auth.phone" := "Teléfono",
      "lots.create" := "Crear Lote",
      "lots.list" := "Lista de Lotes",
      "lots.product_name" := "Nombre del Producto",
      "lots.crop_type" := "Tipo de Cultivo",
      "lots.estimated_quantity" := "Cantidad Estimada",
      "lots.unit_of_measure" := "Unidad de Medida",
      "lots.estimated_harvest_date" := "Fecha Estimada de Cosecha"]
  }

  function PortugueseMessages(): map<string, string> {
    map[
      "app.title" := "Kairos - Rastreabilidade Agrícola",
      "auth.login" := "Entrar",
      "auth.register" := "Registrar",
      "auth.email" := "E-mail",
      "auth.password" := "Senha",
      "auth.full_name" := "Nome Completo",
      "auth.farm_name" := "Nome da Fazenda",
      "auth.phone" := "Telefone",
      "lots.create" := "Criar Lote",
      "lots.list" := "Lista de Lotes",
      "lots.product_name" := "Nome do Produto",
      "lots.crop_type" := "Tipo de Cultura",
      "lots.estimated_quantity" := "Quantidade Estimada",
      "lots.unit_of_measure" := "Unidade de Medida",
      "lots.estimated_harvest_date" := "Data Estimada de Colheita"]
  }

  function EnglishMessages(): map<string, string> {
    map[
      "app.title" := "Kairos - Agricultural Traceability",
      "auth.login" := "Login",
      "auth.register" := "Register",
      "auth.email" := "Email",
      "auth.password" := "Password",
      "auth.full_name" := "Full Name",
      "auth.farm_name" := "Farm Name",
      "auth.phone" := "Phone",
      "lots.create" := "Create Lot",
      "lots.list" := "Lot List",
      "lots.product_name" := "Product Name",
      "lots.crop_type" := "Crop Type",
      "lots.estimated_quantity" := "Estimated Quantity",
      "lots.unit_of_measure" := "Unit of Measure",
      "lots.estimated_harvest_date" := "Estimated Harvest Date"]
  }

  /** The contents of the global table once initialised. */
  function Table(): map<Language, map<string, string>> {
    map[Spanish := SpanishMessages(), Portuguese := PortugueseMessages(), English := EnglishMessages()]
  }

  /** The Spanish block of the global table's initialiser. */
  method BuildSpanish() returns (es: Translations)
    ensures fresh(es)
    ensures es.language == Spanish && es.messages == SpanishMessages()
  {
    es := new Translations(Spanish);
    es.Add("app.title", "Kairos - Trazabilidad Agrícola");
    es.Add("auth.login", "Iniciar Sesión");
    es.Add("auth.register", "Registrarse");
    es.Add("auth.email", "Correo Electrónico");
    es.Add("auth.password", "Contraseña");
    es.Add("auth.full_name", "Nombre Completo");
    es.Add("auth.farm_name", "Nombre de la Finca");
    es.Add("auth.phone", "Teléfono");
    es.Add("lots.create", "Crear Lote");
    es.Add("lots.list", "Lista de Lotes");
    es.Add("lots.product_name", "Nombre del Producto");
    es.Add("lots.crop_type", "Tipo de Cultivo");
    es.Add("lots.estimated_quantity", "Cantidad Estimada");
    es.Add("lots.unit_of_measure", "Unidad de Medida");
    es.Add("lots.estimated_harvest_date", "Fecha Estimada de Cosecha");
  }

  /** The Portuguese block of the global table's initialiser. */
  method BuildPortuguese() returns (pt: Translations)
    ensures fresh(pt)
    ensures pt.language == Portuguese && pt.messages == PortugueseMessages()
  {
    pt := new Translations(Portuguese);
    pt.Add("app.title", "Kairos - Rastreabilidade Agrícola");
    pt.Add("auth.login", "Entrar");
    pt.Add("auth.register", "Registrar");
    pt.Add("auth.email", "E-mail");
    pt.Add("auth.password", "Senha");
    pt.Add("auth.full_name", "Nome Completo");
    pt.Add("auth.farm_name", "Nome da Fazenda");
    pt.Add("auth.phone", "Telefone");
    pt.Add("lots.create", "Criar Lote");
    pt.Add("lots.list", "Lista de Lotes");
    pt.Add("lots.product_name", "Nome do Produto");
    pt.Add("lots.crop_type", "Tipo de Cultura");
    pt.Add("lots.estimated_quantity", "Quantidade Estimada");
    pt.Add("lots.unit_of_measure", "Unidade de Medida");
    pt.Add("lots.estimated_harvest_date", "Data Estimada de Colheita");
  }

  /** The English block of the global table's initialiser. */
  method BuildEnglish() returns (en: Translations)
    ensures fresh(en)
    ensures en.language == English && en.messages == EnglishMessages()
  {
    en := new Translations(English);
    en.Add("app.title", "Kairos - Agricultural Traceability");
    en.Add("auth.login", "Login");
    en.Add("auth.register", "Register");
    en.Add("auth.email", "Email");
    en.Add("auth.password", "Password");
    en.Add("auth.full_name", "Full Name");
    en.Add("auth.farm_name", "Farm Name");
    en.Add("auth.phone", "Phone");
    en.Add("lots.create", "Create Lot");
    en.Add("lots.list", "Lot List");
    en.Add("lots.product_name", "Product Name");
    en.Add("lots.crop_type", "Crop Type");
    en.Add("lots.estimated_quantity", "Estimated Quantity");
    en.Add("lots.unit_of_measure", "Unit of Measure");
    en.Add("lots.estimated_harvest_date", "Estimated Harvest Date");
  }

  /** The initialiser of the global table: three catalogues filled by `add`, each filed
      under its own language. */
  method BuildTable() returns (table: map<Language, Translations>)
    ensures table.Keys == Table().Keys
    ensures forall l :: l in table ==> table[l].language == l && table[l].messages == Table()[l]
    ensures forall l :: l in table ==> fresh(table[l])
  {
    var es := BuildSpanish();
    var pt := BuildPortuguese();
    var en := BuildEnglish();
    table := map[Spanish := es, Portuguese := pt, English := en];
  }

  /** The three catalogues have the same fifteen keys. */
  lemma CataloguesShareKeys()
    ensures forall k :: k in SpanishMessages() <==> k in EnglishMessages()
    ensures forall k :: k in PortugueseMessages() <==> k in EnglishMessages()
  {
  }

  /** One step of the fallback chain: the entry for `key` in `language`'s catalogue. */
  function Lookup(language: Language, key: string): Option<string> {
    if language in Table() && key in Table()[language] then Some(Table()[language][key]) else None
  }

  /** `translations::get_translation` */
  function GetTranslation(language: Language, key: string): (r: string)
    ensures Lookup(language, key).Some? ==> r == Lookup(language, key).value
    ensures Lookup(language, key).None? && Lookup(English, key).Some? ==> r == Lookup(English, key).value
    ensures Lookup(language, key).None? && Lookup(English, key).None? ==> r == key
  {
    match Lookup(language, key)
    case Some(t) => t
    case None =>
      match Lookup(English, key)
      case Some(t) => t
      case None => key
  }

  /** `translations::get_language_translations`: a fresh copy (`cloned`) of the
      language's catalogue, with its language, if the table has one. */
  method GetLanguageTranslations(language: Language) returns (r: Option<Translations>)
    ensures r.Some? <==> language == Spanish || language == Portuguese || language == English
    ensures r.Some? ==> fresh(r.value) && r.value.language == language && r.value.messages == Table()[language]
    ensures r.Some? ==> forall k :: r.value.Get(k) == Lookup(language, k)
  {
    if language in Table() {
      var copy := new Translations(language);
      copy.messages := Table()[language];
      r := Some(copy);
    } else {
      r := None;
    }
  }

  /** The values the unit tests expect for "app.title"; the three are distinct. */
  lemma AppTitles()
    ensures GetTranslation(Spanish, "app.title") == "Kairos - Trazabilidad Agrícola"
    ensures GetTranslation(Portuguese, "app.title") == "Kairos - Rastreabilidade Agrícola"
    ensures GetTranslation(English, "app.title") == "Kairos - Agricultural Traceability"
  {
    assert "app.title" in SpanishMessages();
  }

  /** Only Spanish, Portuguese and English have catalogues; every other language reads
      the English one, and has no catalogue of its own to copy. */
  lemma UntabledLanguagesUseEnglish(l: Language, key: string)
    requires l != Spanish && l != Portuguese && l != English
    ensures GetTranslation(l, key) == GetTranslation(English, key)
    ensures l !in Table()
  {
  }

  /** A key in no catalogue comes back as itself, whatever the language. */
  lemma AbsentKeyReturnedUnchanged(l: Language, key: string)
    requires key !in EnglishMessages()
    ensures GetTranslation(l, key) == key
  {
    CataloguesShareKeys();
  }

  /** Since the catalogues share their keys, a tabled language never falls back: each
      known key reads its own language's entry. */
  lemma TabledLanguagesNeverFallBack(l: Language, key: string)
    requires l == Spanish || l == Portuguese || l == English
    requires key in EnglishMessages()
    ensures GetTranslation(l, key) == Table()[l][key]
  {
    CataloguesShareKeys();
  }
}
