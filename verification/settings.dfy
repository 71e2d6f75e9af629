/**
 * The plugin's settings blob (`rapid_pay_settings`): how the settings form
 * is normalised when it is saved, and the defaults every reader substitutes
 * for a key that is not stored.
 */
module Settings {
  import opened Common

  /** The stored option. A key that is not present is `None`; amounts are
      integer cents. */
  datatype StoredSettings = StoredSettings(
    enabledMethods: Option<seq<string>>,
    instructionText: Option<string>,
    adminPhones: Option<map<string, string>>,
    currency: Option<string>,
    minAmount: Option<int>,
    maxAmount: Option<int>,
    autoExpireEnabled: Option<string>,
    autoExpireHours: Option<int>)

  /** What `get_option` returns before the form was ever saved. */
  const Unsaved: StoredSettings := StoredSettings(None, None, None, None, None, None, None, None)

  /** The submitted settings form. `None` is a field that was not posted;
      the expiry checkbox is posted only when it is ticked. */
  datatype SettingsForm = SettingsForm(
    enabledMethods: Option<seq<string>>,
    instructionText: Option<string>,
    adminPhones: Option<map<string, string>>,
    currency: Option<string>,
    minAmount: Option<int>,
    maxAmount: Option<int>,
    autoExpireChecked: bool,
    autoExpireHours: Option<int>)

  const MinExpireHours: int := 1
  const MaxExpireHours: int := 168
  const DefaultExpireHours: int := 24

  /** `array_intersect($submitted, ['bkash', 'nagad', 'rocket', 'upay'])`:
      the submitted values that are valid methods, in submitted order. */
  function KeepValidMethods(submitted: seq<string>): (r: seq<string>)
    ensures forall m :: m in r <==> m in submitted && m in ValidMethods
    ensures |r| <= |submitted|
  {
    if submitted == [] then []
    else if submitted[0] in ValidMethods then [submitted[0]] + KeepValidMethods(submitted[1..])
    else KeepValidMethods(submitted[1..])
  }

  /** Intersecting a list that holds only valid methods gives the list back
      unchanged, order and repetitions included. */
  lemma {:induction false} KeepValidMethodsKeepsValidList(submitted: seq<string>)
    requires forall i :: 0 <= i < |submitted| ==> submitted[i] in ValidMethods
    ensures KeepValidMethods(submitted) == submitted
  {
    if submitted != [] {
      assert submitted[0] in ValidMethods;
      KeepValidMethodsKeepsValidList(submitted[1..]);
    }
  }

  /** The expiry threshold is clamped into [1, 168] hours. */
  function ClampHours(h: int): (r: int)
    ensures MinExpireHours <= r <= MaxExpireHours
    ensures MinExpireHours <= h <= MaxExpireHours ==> r == h
    ensures h < MinExpireHours ==> r == MinExpireHours
    ensures h > MaxExpireHours ==> r == MaxExpireHours
  {
    if h < MinExpireHours then MinExpireHours
    else if h > MaxExpireHours then MaxExpireHours
    else h
  }

  /** Clamping twice is clamping once. */
  lemma ClampHoursIdempotent(h: int)
    ensures ClampHours(ClampHours(h)) == ClampHours(h)
  {
  }

  /** `save_settings`: the value written to the option. `storeCurrency` is
      the shop's own currency, used when none was posted. */
  function SaveSettings(form: SettingsForm, storeCurrency: string): (s: StoredSettings)
    ensures s.enabledMethods.Some? && s.instructionText.Some? && s.adminPhones.Some?
    ensures s.currency.Some? && s.minAmount.Some? && s.maxAmount.Some?
    ensures s.autoExpireEnabled.Some? && s.autoExpireHours.Some?
    ensures forall m :: m in s.enabledMethods.value <==>
      form.enabledMethods.Some? && m in form.enabledMethods.value && m in ValidMethods
    ensures form.enabledMethods.None? ==> s.enabledMethods.value == []
    ensures s.autoExpireEnabled.value == "yes" <==> form.autoExpireChecked
    ensures s.autoExpireEnabled.value == "no" <==> !form.autoExpireChecked
    ensures MinExpireHours <= s.autoExpireHours.value <= MaxExpireHours
    ensures form.autoExpireHours.None? ==> s.autoExpireHours.value == DefaultExpireHours
    ensures form.autoExpireHours.Some? && MinExpireHours <= form.autoExpireHours.value <= MaxExpireHours
      ==> s.autoExpireHours == form.autoExpireHours
    ensures form.minAmount.None? ==> s.minAmount.value == 0
    ensures form.maxAmount.None? ==> s.maxAmount.value == 0
    ensures form.currency.None? ==> s.currency.value == storeCurrency
  {
    StoredSettings(
      Some(KeepValidMethods(form.enabledMethods.GetOr([]))),
      Some(form.instructionText.GetOr("")),
      Some(form.adminPhones.GetOr(map[])),
      Some(form.currency.GetOr(storeCurrency)),
      Some(form.minAmount.GetOr(0)),
      Some(form.maxAmount.GetOr(0)),
      Some(if form.autoExpireChecked then "yes" else "no"),
      Some(ClampHours(form.autoExpireHours.GetOr(DefaultExpireHours))))
  }

  // ---------------------------------------------------------------------
  // Reading: the defaults each reader substitutes for a missing key
  // ---------------------------------------------------------------------

  /** Methods offered at checkout: all four unless a list was stored. */
  function EnabledMethods(s: StoredSettings): seq<string> {
    s.enabledMethods.GetOr(ValidMethods)
  }

  function MinAmount(s: StoredSettings): int {
    s.minAmount.GetOr(0)
  }

  function MaxAmount(s: StoredSettings): int {
    s.maxAmount.GetOr(0)
  }

  /** The sweeper runs only when the stored flag is exactly "yes". */
  predicate AutoExpireOn(s: StoredSettings) {
    s.autoExpireEnabled.GetOr("no") == "yes"
  }

  function AutoExpireHours(s: StoredSettings): int {
    s.autoExpireHours.GetOr(DefaultExpireHours)
  }

  /** The settings as the settings page shows them. */
  datatype EffectiveSettings = EffectiveSettings(
    enabledMethods: seq<string>,
    instructionText: string,
    adminPhones: map<string, string>,
    currency: string,
    minAmount: int,
    maxAmount: int,
    autoExpireEnabled: string,
    autoExpireHours: int)

  /** `render_settings` reading the stored option. */
  function ReadSettings(s: StoredSettings, storeCurrency: string): (v: EffectiveSettings)
    ensures s.enabledMethods.None? ==> v.enabledMethods == ValidMethods
    ensures s.enabledMethods.Some? ==> v.enabledMethods == s.enabledMethods.value
    ensures s.minAmount.None? ==> v.minAmount == 0
    ensures s.minAmount.Some? ==> v.minAmount == s.minAmount.value
    ensures s.maxAmount.None? ==> v.maxAmount == 0
    ensures s.maxAmount.Some? ==> v.maxAmount == s.maxAmount.value
    ensures s.autoExpireHours.None? ==> v.autoExpireHours == DefaultExpireHours
    ensures s.autoExpireHours.Some? ==> v.autoExpireHours == s.autoExpireHours.value
    ensures s.autoExpireEnabled.None? ==> v.autoExpireEnabled == "no"
    ensures s.autoExpireEnabled.Some? ==> v.autoExpireEnabled == s.autoExpireEnabled.value
    ensures v.autoExpireEnabled == "yes" <==> AutoExpireOn(s)
    ensures s.currency.None? ==> v.currency == storeCurrency
    ensures s.instructionText.None? ==> v.instructionText == ""
    ensures s.adminPhones.None? ==> v.adminPhones == map[]
  {
    EffectiveSettings(
      EnabledMethods(s),
      s.instructionText.GetOr(""),
      s.adminPhones.GetOr(map[]),
      s.currency.GetOr(storeCurrency),
      MinAmount(s),
      MaxAmount(s),
      s.autoExpireEnabled.GetOr("no"),
      AutoExpireHours(s))
  }

  /** Before anything is saved: all four methods, 24 hours, expiry off,
      no amount bounds, the shop's currency. */
  lemma ReadUnsavedDefaults(storeCurrency: string)
    ensures ReadSettings(Unsaved, storeCurrency)
      == EffectiveSettings(ValidMethods, "", map[], storeCurrency, 0, 0, "no", DefaultExpireHours)
  {
  }

  /** Reading back what was saved gives the normalised form: only valid
      methods, hours within [1, 168], expiry on exactly when the box was
      ticked. */
  lemma ReadAfterSave(form: SettingsForm, storeCurrency: string)
    ensures var v := ReadSettings(SaveSettings(form, storeCurrency), storeCurrency);
      && (forall i :: 0 <= i < |v.enabledMethods| ==> v.enabledMethods[i] in ValidMethods)
      && v.enabledMethods == KeepValidMethods(form.enabledMethods.GetOr([]))
      && MinExpireHours <= v.autoExpireHours <= MaxExpireHours
      && (AutoExpireOn(SaveSettings(form, storeCurrency)) <==> form.autoExpireChecked)
      && v.minAmount == form.minAmount.GetOr(0)
      && v.maxAmount == form.maxAmount.GetOr(0)
  {
  }
}
