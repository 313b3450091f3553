/**
 * The decision part of `updateBadge` (utils/glucoseMonitor.ts:154-193): given the badge
 * settings and a freshly saved reading, what happens to the extension's badge.
 */
module Badge {
  import opened Wrappers
  import opened LibreLink

  /** The persisted `badgeSettings` record (utils/glucoseMonitor.ts:10-18). */
  datatype BadgeSettings = BadgeSettings(enabled: bool, selectedAccountId: Option<string>)

  /** The value the settings store hands out before anything was saved. */
  const DefaultSettings := BadgeSettings(true, None)

  datatype Color = Green | Red

  /** The two background colours, as the CSS hex strings passed to the browser. */
  function Hex(c: Color): string {
    match c
    case Green => "#10B981"
    case Red => "#EF4444"
  }

  const HighThreshold := 180
  const LowThreshold := 70

  /** What `updateBadge` does to the badge: nothing, clear its text, or show a value in a colour. */
  datatype BadgeEffect = Untouched | ClearText | Show(text: int, color: Color)

  /** JavaScript truthiness of an optional number: present and not zero. */
  predicate Truthy(v: Option<int>) {
    v.Some? && v.value != 0
  }

  /** `settings.selectedAccountId && settings.selectedAccountId !== accountId`: the empty id counts as unset. */
  predicate SelectsOther(settings: BadgeSettings, accountId: string) {
    settings.selectedAccountId.Some? && settings.selectedAccountId.value != "" &&
    settings.selectedAccountId.value != accountId
  }

  /** `reading.Value || reading.value`, when that is truthy. */
  function BadgeValue(reading: Reading): Option<int> {
    if Truthy(reading.Value) then reading.Value
    else if Truthy(reading.value) then reading.value
    else None
  }

  predicate OutOfRange(v: int) {
    v > HighThreshold || v < LowThreshold
  }

  /**
   * The badge decision. A disabled badge only has its text cleared; a reading of an account
   * other than the selected one leaves the badge alone, and so does a reading without a truthy
   * value; otherwise the badge shows the value, red exactly when the reading is flagged high or
   * low or lies outside [70, 180], green otherwise.
   */
  function Decide(settings: BadgeSettings, accountId: string, reading: Reading): (e: BadgeEffect)
    ensures e == ClearText <==> !settings.enabled
    ensures e.Show? <==> settings.enabled && !SelectsOther(settings, accountId) && BadgeValue(reading).Some?
    ensures e.Show? ==> e.text != 0 && (reading.Value == Some(e.text) || reading.value == Some(e.text))
    ensures e.Show? && Truthy(reading.Value) ==> e.text == reading.Value.value
    ensures e.Show? ==> (e.color == Red <==> reading.isHigh || reading.isLow || OutOfRange(e.text))
  {
    if !settings.enabled then ClearText
    else if SelectsOther(settings, accountId) then Untouched
    else
      match BadgeValue(reading)
      case None => Untouched
      case Some(val) =>
        Show(val, if reading.isHigh || reading.isLow then Red else if OutOfRange(val) then Red else Green)
  }

  /** A disabled badge has its text cleared whatever the reading says. */
  lemma DisabledClearsText(selected: Option<string>, accountId: string, reading: Reading)
    ensures Decide(BadgeSettings(false, selected), accountId, reading) == ClearText
  {
  }

  /** A reading of another account than the selected one leaves the badge alone. */
  lemma OtherAccountLeavesBadge(reading: Reading)
    ensures Decide(BadgeSettings(true, Some("X")), "Y", reading) == Untouched
  {
  }

  /** 220 with neither flag set is shown in the alert colour. */
  lemma HighValueIsRed(accountId: string)
    ensures Decide(DefaultSettings, accountId, Reading(Some(220), None, false, false)) == Show(220, Red)
  {
  }

  /** The background colour passed to the browser for a shown value. */
  lemma ShownColourHex(settings: BadgeSettings, accountId: string, reading: Reading)
    requires Decide(settings, accountId, reading).Show?
    ensures var e := Decide(settings, accountId, reading);
      Hex(e.color) == if reading.isHigh || reading.isLow || OutOfRange(e.text) then "#EF4444" else "#10B981"
  {
  }

  /** A zero or missing value leaves the badge alone, even when the reading is flagged. */
  lemma FalsyValueLeavesBadge(settings: BadgeSettings, accountId: string, isHigh: bool, isLow: bool)
    requires settings.enabled
    ensures Decide(settings, accountId, Reading(Some(0), None, isHigh, isLow)) == Untouched
  {
  }
}
