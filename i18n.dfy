/** Language selection of `getI18n`: the one in the `empty` template's
    `utils/i18n.ts`, and the one the scaffolder generates for the chosen
    languages. Translation tables are JSON files, so they are parameters. */
module I18n {
  import opened Text

  const LANGUAGES: seq<string> := ["ua", "en"]
  const DEFAULT_LANG := "ua"

  /** `currentLang`: the requested language when it is given, non-empty and
      one of `languages`; otherwise `defaultLang`. */
  function CurrentLang(lang: Option<string>, languages: seq<string>, defaultLang: string): (r: string)
    ensures r in languages || r == defaultLang
    ensures TruthyStr(lang) && lang.value in languages <==> lang == Some(r) && r != "" && r in languages
    ensures r != defaultLang ==> lang == Some(r)
  {
    if TruthyStr(lang) && lang.value in languages then lang.value else defaultLang
  }

  /** Feeding the chosen language back in chooses it again. */
  lemma CurrentLangIdempotent(lang: Option<string>, languages: seq<string>, defaultLang: string)
    requires defaultLang in languages && defaultLang != ""
    ensures var r := CurrentLang(lang, languages, defaultLang);
      CurrentLang(Some(r), languages, defaultLang) == r
  {
  }

  datatype I18nResult<T> = I18nResult(lang: string, t: T)

  /** `getI18n` of the `empty` template, whose translations are `ua` and
      `en`: the language returned is always one of `LANGUAGES`, a listed one
      is kept, anything else (absent, empty, unknown) gives `ua`, and `t` is
      that language's table. */
  function GetI18n<T>(lang: Option<string>, ua: T, en: T): (r: I18nResult<T>)
    ensures r.lang in LANGUAGES
    ensures r.t == map["ua" := ua, "en" := en][r.lang]
    ensures lang.Some? && lang.value in LANGUAGES ==> r.lang == lang.value
    ensures lang.None? || lang.value !in LANGUAGES ==> r.lang == DEFAULT_LANG
  {
    var translations := map["ua" := ua, "en" := en];
    var currentLang := CurrentLang(lang, LANGUAGES, DEFAULT_LANG);
    I18nResult(currentLang, translations[currentLang])
  }

  lemma GetI18nIdempotent<T>(lang: Option<string>, ua: T, en: T)
    ensures GetI18n(Some(GetI18n(lang, ua, en).lang), ua, en) == GetI18n(lang, ua, en)
  {
    CurrentLangIdempotent(lang, LANGUAGES, DEFAULT_LANG);
  }

  /** `getI18n` of a generated module: `LANGUAGES` are the selected
      languages, `DEFAULT_LANG` the first of them, and `translations` maps
      each of them to its table. */
  function GeneratedGetI18n<T>(lang: Option<string>, sel: seq<string>, translations: map<string, T>): (r: I18nResult<T>)
    requires |sel| >= 1
    requires forall l :: l in sel ==> l in translations
    ensures r.lang in sel
    ensures r.t == translations[r.lang]
    ensures TruthyStr(lang) && lang.value in sel ==> r.lang == lang.value
    ensures !(TruthyStr(lang) && lang.value in sel) ==> r.lang == sel[0]
  {
    var currentLang := CurrentLang(lang, sel, sel[0]);
    I18nResult(currentLang, translations[currentLang])
  }
}
