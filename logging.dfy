/** The two decisions inside the tool's logging: which message text to show and
    whether a message of a given level is shown at all. The console output itself
    is not modelled. */
module Logging {

  /** `getI18nString`: the entry for `key` in the table of `lang`; the key itself
      when the language has no table, the table has no such entry, or the entry
      is the empty string. */
  function I18nString(tables: map<string, map<string, string>>, lang: string, key: string): (s: string)
    ensures s == key || (lang in tables && key in tables[lang] && s == tables[lang][key])
    ensures lang in tables && key in tables[lang] && tables[lang][key] != "" ==> s == tables[lang][key]
    ensures !(lang in tables && key in tables[lang]) ==> s == key
    ensures key != "" ==> s != ""
  {
    if lang in tables && key in tables[lang] && tables[lang][key] != "" then tables[lang][key] else key
  }

  /** The filter at the head of `log`: is a message of `level` shown when the
      configured level is `configured`? Errors are always shown; the "error"
      setting shows nothing else; the "info" setting hides exactly the debug
      messages; every other setting, "debug" and unknown names alike, shows
      everything. */
  function ShouldLog(configured: string, level: string): (shown: bool)
    ensures level == "error" ==> shown
    ensures configured == "error" ==> (shown <==> level == "error")
    ensures configured == "info" ==> (shown <==> level != "debug")
    ensures configured != "error" && configured != "info" ==> shown
  {
    !(configured == "error" && level != "error") && !(configured == "info" && level == "debug")
  }
}
