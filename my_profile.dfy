/** The profile page, src/pages/MyProfile.jsx: the role badge, whether a
    premium subscription is active, the status line, the date fallback and the
    membership length. Times are millisecond timestamps; `now` is the clock. */
module MyProfile {
  import opened Common
  import Session

  const MsPerDay := 1000 * 60 * 60 * 24

  datatype RoleIcon = CrownIcon | ShieldIcon | UserIcon

  /** The badge shown for a role (its colours for the light theme). */
  datatype RoleConfig = RoleConfig(labelText: string, icon: RoleIcon, textColor: string, bgColor: string)

  const PremiumConfig := RoleConfig("Premium User", CrownIcon, "text-yellow-600", "bg-yellow-50")
  const AdminConfig := RoleConfig("Administrator", ShieldIcon, "text-purple-600", "bg-purple-50")
  const DefaultConfig := RoleConfig("Standard User", UserIcon, "text-blue-600", "bg-blue-50")

  /** `{...base, ...(cond && overlay)}`: spreading `false` adds nothing, and the
      overlay defines every field of the base. */
  function SpreadIf(base: RoleConfig, cond: bool, overlay: RoleConfig): RoleConfig
  {
    if cond then overlay else base
  }

  /** `getRoleConfig`. */
  function RoleConfigFor(role: Option<string>): (c: RoleConfig)
    ensures c.labelText == "Premium User" <==> role == Some("premium")
    ensures c.labelText == "Administrator" <==> role == Some("admin")
    ensures c.labelText == "Standard User" <==> role != Some("premium") && role != Some("admin")
    ensures c == PremiumConfig || c == AdminConfig || c == DefaultConfig
  {
    SpreadIf(SpreadIf(DefaultConfig, role == Some("premium"), PremiumConfig), role == Some("admin"), AdminConfig)
  }

  /** `isPremiumActive`: the loaded record has an expiry, the premium role, and
      the expiry is later than now. */
  function IsPremiumActive(details: Option<Session.UserRecord>, now: int): (active: bool)
    ensures active ==> details.Some? && details.value.role == Some("premium") && details.value.premiumExpiry.Some?
    ensures details.Some? && details.value.role == Some("premium") && details.value.premiumExpiry.Some? ==>
      (active <==> details.value.premiumExpiry.value > now)
  {
    if details.None? || details.value.premiumExpiry.None? || details.value.role != Some("premium") then false
    else details.value.premiumExpiry.value > now
  }

  /** A subscription active now was active at every earlier time, and one that
      has run out stays run out. */
  lemma PremiumExpiresOnce(details: Option<Session.UserRecord>, earlier: int, later: int)
    requires earlier <= later
    ensures IsPremiumActive(details, later) ==> IsPremiumActive(details, earlier)
    ensures !IsPremiumActive(details, earlier) ==> !IsPremiumActive(details, later)
  {
  }

  /** The status line under "Status". */
  function StatusLabel(details: Option<Session.UserRecord>, now: int): string
  {
    if details.Some? && details.value.role == Some("premium") && IsPremiumActive(details, now)
    then "Premium Active" else "Standard"
  }

  /** The status reads "Premium Active" exactly when the subscription is active. */
  lemma StatusLabelMeaning(details: Option<Session.UserRecord>, now: int)
    ensures StatusLabel(details, now) == "Premium Active" <==> IsPremiumActive(details, now)
    ensures StatusLabel(details, now) != "Premium Active" ==> StatusLabel(details, now) == "Standard"
  {
  }

  /** What `formatDate` shows: a fixed text, or a date rendered in the en-US
      locale (the rendering itself is not modelled). */
  datatype DateText = Fixed(text: string) | LocaleDate(millis: int)

  function FormatDate(date: Option<int>): (t: DateText)
    ensures t == Fixed("Not available") <==> date.None?
    ensures date.Some? ==> t == LocaleDate(date.value)
  {
    if date.None? then Fixed("Not available") else LocaleDate(date.value)
  }

  /** "Member For": whole days since the account was created, rounded down
      (`Math.floor`), or 0 when the creation date is missing. */
  function MemberDays(createdAt: Option<int>, now: int): (days: int)
    ensures createdAt.None? ==> days == 0
    ensures createdAt.Some? ==> days * MsPerDay <= now - createdAt.value < (days + 1) * MsPerDay
  {
    // Dafny's division by a positive divisor rounds down, as Math.floor does
    if createdAt.None? then 0 else (now - createdAt.value) / MsPerDay
  }

  /** The membership length never decreases as time passes. */
  lemma MemberDaysMonotone(createdAt: Option<int>, earlier: int, later: int)
    requires earlier <= later
    ensures MemberDays(createdAt, earlier) <= MemberDays(createdAt, later)
  {
  }
}
