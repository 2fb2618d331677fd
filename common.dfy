/** kairos-common: the Language enum with its ISO 639-1 codes, and the records the
    authentication core exchanges (producers, register/login requests, token responses). */
module Common {
  import opened Prelude
  import Uuids

  datatype Language =
    | English
    | Spanish
    | Portuguese
    | French
    | German
    | Italian
    | Russian
    | Chinese
    | Japanese
    | Korean

  predicate IsLowerAsciiLetter(c: char) {
    'a' <= c <= 'z'
  }

  /** `Language::to_str`: the ISO 639-1 code, always two lower-case ASCII letters. */
  function ToStr(l: Language): (code: string)
    ensures |code| == 2 && IsLowerAsciiLetter(code[0]) && IsLowerAsciiLetter(code[1])
  {
    match l
    case English => "en"
    case Spanish => "es"
    case Portuguese => "pt"
    case French => "fr"
    case German => "de"
    case Italian => "it"
    case Russian => "ru"
    case Chinese => "zh"
    case Japanese => "ja"
    case Korean => "ko"
  }

  /** The ten codes `to_str` produces. */
  const Codes: set<string> := {"en", "es", "pt", "fr", "de", "it", "ru", "zh", "ja", "ko"}

  /** `Language::from_str`: exact, case-sensitive match on one of the ten codes. */
  function FromStr(s: string): (r: Result<Language, ()>)
    ensures r.Ok? ==> ToStr(r.value) == s
    ensures r.Ok? <==> s in Codes
  {
    match s
    case "en" => Ok(English)
    case "es" => Ok(Spanish)
    case "pt" => Ok(Portuguese)
    case "fr" => Ok(French)
    case "de" => Ok(German)
    case "it" => Ok(Italian)
    case "ru" => Ok(Russian)
    case "zh" => Ok(Chinese)
    case "ja" => Ok(Japanese)
    case "ko" => Ok(Korean)
    case _ => Err(())
  }

  /** `Display for Language`: writes the code. */
  function Display(l: Language): (text: string)
    ensures FromStr(text) == Ok(l)
  {
    ToStr(l)
  }

  /** `Language::default()` (the `#[default]` variant). */
  function Default(): (l: Language)
    ensures ToStr(l) == "es"
  {
    Spanish
  }

  lemma FromStrOfToStr(l: Language)
    ensures FromStr(ToStr(l)) == Ok(l)
  {
  }

  lemma ToStrInjective(l: Language, m: Language)
    requires ToStr(l) == ToStr(m)
    ensures l == m
  {
    FromStrOfToStr(l);
    FromStrOfToStr(m);
  }

  /** Exactly the ten codes are accepted, and each names exactly one language. */
  lemma FromStrAcceptsExactlyCodes(s: string)
    ensures FromStr(s).Ok? <==> exists l: Language :: ToStr(l) == s
  {
    if FromStr(s).Ok? {
      assert ToStr(FromStr(s).value) == s;
    }
  }

  /** Upper-case and region-tagged forms are rejected. */
  lemma FromStrRejectsVariants()
    ensures FromStr("ES").Err? && FromStr("es-AR").Err? && FromStr("").Err? && FromStr("en ").Err?
  {
  }

  /** The producer fields the authentication core reads; the password hash and the
      audit timestamps are not modelled. */
  datatype Producer = Producer(
    id: Uuids.Uuid,
    fullName: string,
    email: string,
    farmName: Option<string>,
    phone: Option<string>,
    languagePreference: Language,
    isActive: bool,
    emailVerified: bool)

  datatype RegisterProducerRequest = RegisterProducerRequest(
    fullName: string,
    email: string,
    password: string,
    farmName: Option<string>,
    phone: Option<string>,
    languagePreference: Option<Language>)

  datatype LoginRequest = LoginRequest(email: string, password: string)

  datatype TokenResponse = TokenResponse(accessToken: string, tokenType: string, expiresIn: int)
}
