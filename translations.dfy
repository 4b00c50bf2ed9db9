/** The translation lookup (client/src/lib/translations.ts): one string table
    per language and `t(key, lang)`, which falls back to English and then to
    the key itself. Only the navigation entries of the tables are written
    out here; `Lookup` is stated for any tables. */
module Translations {
  import opened I18n

  type Table = map<string, string>

  /** `translations[lang][key] || translations.en[key] || key`: a missing
      entry and an empty string are both falsy. */
  function Lookup(tables: Language -> Table, key: string, lang: Language): (r: string)
    ensures key in tables(lang) && tables(lang)[key] != "" ==> r == tables(lang)[key]
    ensures !(key in tables(lang) && tables(lang)[key] != "") && key in tables(En) && tables(En)[key] != "" ==>
      r == tables(En)[key]
    ensures !(key in tables(lang) && tables(lang)[key] != "") && !(key in tables(En) && tables(En)[key] != "") ==>
      r == key
  {
    var own := tables(lang);
    var english := tables(En);
    if key in own && own[key] != "" then own[key]
    else if key in english && english[key] != "" then english[key]
    else key
  }

  /** The result is never empty when the key is not, and it is always the
      language's entry, the English entry or the key. */
  lemma LookupNeverEmpty(tables: Language -> Table, key: string, lang: Language)
    requires key != ""
    ensures Lookup(tables, key, lang) != ""
    ensures var r := Lookup(tables, key, lang);
      (key in tables(lang) && r == tables(lang)[key]) || (key in tables(En) && r == tables(En)[key]) || r == key
  {
  }

  /** English needs no second step: its lookup is its own entry or the
      key. */
  lemma EnglishLookup(tables: Language -> Table, key: string)
    ensures Lookup(tables, key, En) == if key in tables(En) && tables(En)[key] != "" then tables(En)[key] else key
  {
  }

  /** A language whose table has every English key translated, with no
      empty entry, never falls back. */
  lemma CompleteTableNeverFallsBack(tables: Language -> Table, lang: Language, key: string)
    requires key in tables(En) && tables(En).Keys <= tables(lang).Keys
    requires forall k :: k in tables(lang) ==> tables(lang)[k] != ""
    ensures Lookup(tables, key, lang) == tables(lang)[key]
  {
  }

  const NavKeys: set<string> := {"nav.properties", "nav.matching", "nav.messages", "nav.profile", "nav.logout", "nav.login"}

  function NavTable(properties: string, matching: string, messages: string, profile: string,
                    logout: string, login: string): (t: Table)
    ensures t.Keys == NavKeys
  {
    map["nav.properties" := properties, "nav.matching" := matching, "nav.messages" := messages,
        "nav.profile" := profile, "nav.logout" := logout, "nav.login" := login]
  }

  /** The navigation entries of each language's table. */
  function NavEntries(l: Language): (t: Table)
    ensures t.Keys == NavKeys
  {
    match l
    case En => NavTable("Properties", "Matching", "Messages", "Profile", "Logout", "Login")
    case It => NavTable("Proprietà", "Matching", "Messaggi", "Profilo", "Esci", "Accedi")
    case Fr => NavTable("Propriétés", "Compatibilité", "Messages", "Profil", "Déconnexion", "Connexion")
    case De => NavTable("Immobilien", "Kompatibilität", "Nachrichten", "Profil", "Abmelden", "Anmelden")
    case Es => NavTable("Propiedades", "Compatibilidad", "Mensajes", "Perfil", "Cerrar sesión", "Iniciar sesión")
    case Sv => NavTable("Fastigheter", "Matchning", "Meddelanden", "Profil", "Logga ut", "Logga in")
    case Pt => NavTable("Propriedades", "Compatibilidade", "Mensagens", "Perfil", "Sair", "Entrar")
    case Nl => NavTable("Woningen", "Compatibiliteit", "Berichten", "Profiel", "Afmelden", "Aanmelden")
  }

  /** `t(key, lang)` over the tables. */
  function T(key: string, lang: Language): string {
    Lookup(NavEntries, key, lang)
  }

  /** Every table has the same keys as the English one. */
  lemma TablesHaveSameKeys(l: Language)
    ensures NavEntries(l).Keys == NavEntries(En).Keys
  {
  }

  /** `t('nav.properties', lang)` for the English, Italian, French and
      German tables. */
  lemma NavPropertiesFirstFour()
    ensures T("nav.properties", En) == "Properties"
    ensures T("nav.properties", It) == "Proprietà"
    ensures T("nav.properties", Fr) == "Propriétés"
    ensures T("nav.properties", De) == "Immobilien"
  {
  }

  /** `t('nav.properties', lang)` for the Spanish, Swedish, Portuguese and
      Dutch tables. */
  lemma NavPropertiesLastFour()
    ensures T("nav.properties", Es) == "Propiedades"
    ensures T("nav.properties", Sv) == "Fastigheter"
    ensures T("nav.properties", Pt) == "Propriedades"
    ensures T("nav.properties", Nl) == "Woningen"
  {
  }

  /** A key that no table has comes back unchanged in every language. */
  lemma UnknownKeyIsReturned(tables: Language -> Table, key: string, lang: Language)
    requires forall l :: key !in tables(l)
    ensures Lookup(tables, key, lang) == key
  {
  }
}
