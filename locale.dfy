/**
 * The locale provider of the admin panel: which locale code is active, and when
 * the signed-in user's stored `locale` preference is overwritten.
 *
 * Precedence: a URL `locale` parameter that is one of the configured codes,
 * then (for a signed-in user) the stored preference when it is configured,
 * then the default locale. Reading and writing the preference are calls into
 * the preferences provider; here the stored preference is a field and every
 * write is recorded.
 */
module Locale {
  import opened Js

  /** The `localization` block of the configuration. */
  datatype Localization = Localization(defaultLocale: Option<string>, localeCodes: seq<string>)

  /** Used when localization is off or names no default locale. */
  const FallbackLocale: string := "en"

  /** The default locale: the configured one when it is set, otherwise "en". */
  function DefaultLocale(localization: Option<Localization>): (r: string)
    ensures r != ""
    ensures localization.Some? && TruthyString(localization.value.defaultLocale) ==>
              r == localization.value.defaultLocale.value
    ensures !(localization.Some? && TruthyString(localization.value.defaultLocale)) ==>
              r == FallbackLocale
  {
    if localization.Some? && TruthyString(localization.value.defaultLocale)
    then localization.value.defaultLocale.value
    else FallbackLocale
  }

  /**
   * The code the provider starts with: the URL parameter when it is a
   * non-empty string, otherwise the default. The parameter is not checked
   * against the configured codes here; the change handler does that.
   */
  function InitialLocaleCode(param: Option<string>, localization: Option<Localization>): (r: string)
    ensures r != ""
    ensures TruthyString(param) ==> r == param.value
    ensures !TruthyString(param) ==> r == DefaultLocale(localization)
  {
    if TruthyString(param) then param.value else DefaultLocale(localization)
  }

  /** `code && localization.localeCodes.indexOf(code) > -1` */
  predicate IsConfigured(l: Localization, code: Option<string>)
  {
    TruthyString(code) && code.value in l.localeCodes
  }

  /** What one run of the change handler decides. */
  datatype Resolution =
    | Keep                                          // localization is off: nothing is set, nothing written
    | Resolve(code: string, write: Option<string>)  // the new code, and the preference written if any

  /**
   * The decision of the locale change handler, given the URL parameter,
   * whether a user is signed in, and the user's stored preference (only
   * consulted when a user is signed in).
   */
  function LocaleChange(localization: Option<Localization>, param: Option<string>,
                        user: bool, stored: Option<string>): (r: Resolution)
    ensures r.Keep? <==> localization.None?
    ensures r.Resolve? ==> r.code != ""
    ensures r.Resolve? ==>
              r.code in localization.value.localeCodes || r.code == DefaultLocale(localization)
    ensures r.Resolve? && r.write.Some? ==> user && r.write.value == r.code
  {
    match localization
    case None => Keep
    case Some(l) =>
      if IsConfigured(l, param) then
        Resolve(param.value, if user then Some(param.value) else None)
      else if user && IsConfigured(l, stored) then
        Resolve(stored.value, None)
      else
        var d := DefaultLocale(localization);
        Resolve(d, if user then Some(d) else None)
  }

  /** A configured URL parameter wins, and is stored exactly when a user is signed in. */
  lemma ParamTakesPrecedence(localization: Option<Localization>, param: Option<string>,
                             user: bool, stored: Option<string>)
    requires localization.Some? && IsConfigured(localization.value, param)
    ensures LocaleChange(localization, param, user, stored)
            == Resolve(param.value, if user then Some(param.value) else None)
  {
  }

  /** A URL parameter that is empty or not configured is as good as none. */
  lemma UnconfiguredParamIgnored(localization: Option<Localization>, param: Option<string>,
                                 user: bool, stored: Option<string>)
    requires localization.Some? && !IsConfigured(localization.value, param)
    ensures LocaleChange(localization, param, user, stored)
            == LocaleChange(localization, None, user, stored)
  {
  }

  /** Without a usable parameter, a signed-in user's configured preference wins and is not rewritten. */
  lemma PreferenceTakesPrecedence(localization: Option<Localization>, param: Option<string>,
                                  stored: Option<string>)
    requires localization.Some? && !IsConfigured(localization.value, param)
    requires IsConfigured(localization.value, stored)
    ensures LocaleChange(localization, param, true, stored) == Resolve(stored.value, None)
  {
  }

  /**
   * Otherwise the default applies; for a signed-in user whose preference is
   * missing or not configured, the default is also written as the preference.
   */
  lemma DefaultOtherwise(localization: Option<Localization>, param: Option<string>,
                         user: bool, stored: Option<string>)
    requires localization.Some? && !IsConfigured(localization.value, param)
    requires !(user && IsConfigured(localization.value, stored))
    ensures LocaleChange(localization, param, user, stored)
            == Resolve(DefaultLocale(localization),
                       if user then Some(DefaultLocale(localization)) else None)
  {
  }

  /** With no user the stored preference is neither read nor written. */
  lemma AnonymousIgnoresPreference(localization: Option<Localization>, param: Option<string>,
                                   stored1: Option<string>, stored2: Option<string>)
    ensures LocaleChange(localization, param, false, stored1)
            == LocaleChange(localization, param, false, stored2)
    ensures LocaleChange(localization, param, false, stored1).Resolve? ==>
              LocaleChange(localization, param, false, stored1).write == None
  {
  }

  /** The stored preference after a run that decided `r`. */
  function StoredAfter(r: Resolution, stored: Option<string>): Option<string>
  {
    if r.Resolve? && r.write.Some? then r.write else stored
  }

  /**
   * Running the handler again for the same user and parameter picks the same
   * code; when the parameter is unusable and the default is configured, the
   * second run writes nothing.
   */
  lemma HandlerSettles(localization: Option<Localization>, param: Option<string>,
                        stored: Option<string>)
    requires localization.Some?
    ensures var r1 := LocaleChange(localization, param, true, stored);
            var r2 := LocaleChange(localization, param, true, StoredAfter(r1, stored));
            && r2.code == r1.code
            && ((!IsConfigured(localization.value, param)
                 && DefaultLocale(localization) in localization.value.localeCodes) ==> r2.write == None)
  {
  }

  /**
   * The provider's state: the active code, the locale record looked up for
   * it, and the signed-in user's stored `locale` preference together with
   * every write issued to it.
   */
  class LocaleProvider {
    const localization: Option<Localization>
    var localeCode: string
    /** The code `findLocaleFromCode` was last asked for; None while localization is off. */
    var locale: Option<string>
    /** The stored `locale` preference of the signed-in user. */
    var preference: Option<string>
    /** Every `setPreference('locale', …)` issued, oldest first. */
    var preferenceWrites: seq<string>

    ghost predicate Valid()
      reads this
    {
      && localeCode != ""
      && (locale.None? <==> localization.None?)
      && (locale.Some? ==> locale.value == localeCode)
    }

    /** Mounting the provider with the URL parameter present at that time. */
    constructor (localization: Option<Localization>, param: Option<string>, stored: Option<string>)
      ensures Valid()
      ensures this.localization == localization
      ensures localeCode == InitialLocaleCode(param, localization)
      ensures preference == stored && preferenceWrites == []
    {
      this.localization := localization;
      var code := InitialLocaleCode(param, localization);
      localeCode := code;
      locale := if localization.Some? then Some(code) else None;
      preference := stored;
      preferenceWrites := [];
    }

    method SetPreference(code: string)
      modifies this`preference, this`preferenceWrites
      ensures preference == Some(code)
      ensures preferenceWrites == old(preferenceWrites) + [code]
    {
      preference := Some(code);
      preferenceWrites := preferenceWrites + [code];
    }

    /** Sets the code and looks up its locale record. */
    method SetLocale(code: string)
      requires localization.Some? && code != ""
      modifies this`localeCode, this`locale
      ensures localeCode == code && locale == Some(code)
    {
      localeCode := code;
      locale := Some(code);
    }

    /** One run of the effect that reacts to a new URL parameter or user. */
    method LocaleChangeHandler(param: Option<string>, user: bool)
      requires Valid()
      modifies this
      ensures Valid()
      ensures match LocaleChange(localization, param, user, old(preference))
              case Keep =>
                && localeCode == old(localeCode) && locale == old(locale)
                && preference == old(preference) && preferenceWrites == old(preferenceWrites)
              case Resolve(code, write) =>
                && localeCode == code && locale == Some(code)
                && preference == StoredAfter(Resolve(code, write), old(preference))
                && preferenceWrites == old(preferenceWrites) + (if write.Some? then [write.value] else [])
    {
      if localization.None? {
        return;
      }
      var codes := localization.value.localeCodes;

      if TruthyString(param) && param.value in codes {
        SetLocale(param.value);
        if user {
          SetPreference(param.value);
        }
        return;
      }

      var defaultLocale := DefaultLocale(localization);
      if user {
        var preferenceLocale := preference;
        var isPreferenceInConfig := TruthyString(preferenceLocale) && preferenceLocale.value in codes;
        if isPreferenceInConfig {
          SetLocale(preferenceLocale.value);
          return;
        }
        SetPreference(defaultLocale);
      }
      SetLocale(defaultLocale);
    }
  }
}
