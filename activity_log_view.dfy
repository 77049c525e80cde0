/**
 * The activity feed (`ActivityLog` component): relative timestamps, the verb for each kind
 * of action, the icon tone and the actor's avatar letters.
 */
module ActivityLogView {
  import opened Common
  import opened Text
  import opened Records
  import opened UserModel
  import opened ActivityEndpoint
  import opened TeamMembersView

  const MINUTE_MS: int := 60000
  const HOUR_MS: int := 3600000
  const DAY_MS: int := 86400000
  const WEEK_MS: int := 7 * DAY_MS

  datatype TimeUnit = Minute | Hour | Day

  /**
   * What `formatTimestamp` shows for an entry `diffMs` milliseconds old: "Just now", a
   * count of whole units, or the entry's date in the browser's locale.
   */
  datatype TimeLabel = JustNow | Ago(count: nat, unit: TimeUnit) | CalendarDate

  /**
   * The bucket for an age in milliseconds. The counts are JavaScript's `Math.floor` of the
   * quotient, which for a positive divisor is Dafny's `/`. A negative age, an entry from the
   * future, is "Just now".
   */
  function FormatTimestamp(diffMs: int): (r: TimeLabel)
    ensures r == JustNow <==> diffMs < MINUTE_MS
    ensures (r.Ago? && r.unit == Minute) <==> MINUTE_MS <= diffMs < HOUR_MS
    ensures (r.Ago? && r.unit == Hour) <==> HOUR_MS <= diffMs < DAY_MS
    ensures (r.Ago? && r.unit == Day) <==> DAY_MS <= diffMs < WEEK_MS
    ensures r == CalendarDate <==> diffMs >= WEEK_MS
    ensures r.Ago? ==> r.count == diffMs / UnitMs(r.unit) && 1 <= r.count < Span(r.unit)
  {
    var diffMins := diffMs / 60000;
    var diffHours := diffMs / 3600000;
    var diffDays := diffMs / 86400000;
    if diffMins < 1 then JustNow
    else if diffMins < 60 then Ago(diffMins, Minute)
    else if diffHours < 24 then Ago(diffHours, Hour)
    else if diffDays < 7 then Ago(diffDays, Day)
    else CalendarDate
  }

  function UnitMs(u: TimeUnit): int
  {
    match u
    case Minute => MINUTE_MS
    case Hour => HOUR_MS
    case Day => DAY_MS
  }

  /** How many of the unit the bucket holds before the next one starts. */
  function Span(u: TimeUnit): int
  {
    match u
    case Minute => 60
    case Hour => 24
    case Day => 7
  }

  function UnitName(u: TimeUnit): string
  {
    match u
    case Minute => "minute"
    case Hour => "hour"
    case Day => "day"
  }

  /** The text shown; `date` stands for `toLocaleDateString()`, which is not modelled. */
  function Render(l: TimeLabel, date: string): (r: string)
    ensures l.JustNow? ==> r == "Just now"
    ensures l.CalendarDate? ==> r == date
    ensures l.Ago? ==> var n := NatToString(l.count);
      |r| > |n| + 4 && r[..|n|] == n && r[|r| - 4..] == " ago"
  {
    match l
    case JustNow => "Just now"
    case Ago(n, u) => NatToString(n) + " " + UnitName(u) + (if n > 1 then "s" else "") + " ago"
    case CalendarDate => date
  }

  /** The unit takes a plural "s" exactly when the count is more than one. */
  lemma PluralIffMany(n: nat, u: TimeUnit, date: string)
    ensures var text := Render(Ago(n, u), date);
      |text| >= 5 && (text[|text| - 5] == 's' <==> n > 1)
  {
    var head := NatToString(n) + " " + UnitName(u);
    var name := UnitName(u);
    assert name[|name| - 1] != 's';
    assert head[|head| - 1] == name[|name| - 1];
    if n > 1 {
      assert Render(Ago(n, u), date) == head + "s" + " ago";
    } else {
      assert Render(Ago(n, u), date) == head + " ago";
    }
  }

  /** How old a bucket is: later buckets are for older entries. */
  function Rank(l: TimeLabel): int
  {
    match l
    case JustNow => 0
    case Ago(_, u) => (match u case Minute => 1 case Hour => 2 case Day => 3)
    case CalendarDate => 4
  }

  /** An older entry never lands in a younger bucket, nor shows a smaller count of the same unit. */
  lemma OlderIsNeverYounger(a: int, b: int)
    requires a <= b
    ensures Rank(FormatTimestamp(a)) <= Rank(FormatTimestamp(b))
    ensures FormatTimestamp(a).Ago? && FormatTimestamp(b).Ago? && FormatTimestamp(a).unit == FormatTimestamp(b).unit ==>
      FormatTimestamp(a).count <= FormatTimestamp(b).count
  {
    var u := FormatTimestamp(a);
    if u.Ago? && FormatTimestamp(b).Ago? && u.unit == FormatTimestamp(b).unit {
      DivMonotone(a, b, UnitMs(u.unit));
    }
  }

  lemma DivMonotone(a: int, b: int, d: int)
    requires a <= b && d > 0
    ensures a / d <= b / d
  {
    var qa, qb := a / d, b / d;
    assert qa * d <= a;
    assert b < (qb + 1) * d;
    if qb + 1 <= qa {
      MulMonotone(qb + 1, qa, d);
      assert false;
    }
  }

  lemma MulMonotone(x: int, y: int, d: int)
    requires x <= y && d > 0
    ensures x * d <= y * d
  {
  }

  // ---------------------------------------------------------------------------
  // verbs and icons

  /** The action types `formatActionText` has a verb of its own for. */
  const VERB_TYPES: set<string> := {"invite", "role_change", "delete", "upload", "summary_create", "settings_update", "workspace_create"}

  /** `formatActionText`: the verb for an action type, compared case-insensitively. */
  function ActionText(actionType: string): (r: string)
    ensures r == "updated" <==> ToLower(actionType) !in VERB_TYPES
  {
    ActionVerb(ToLower(actionType))
  }

  /** The verb for a lower-case action type: its own verb, or the fallback "updated". */
  function ActionVerb(t: string): (r: string)
    ensures r == "updated" <==> t !in VERB_TYPES
    ensures r != ""
  {
    if t == "invite" then "invited"
    else if t == "role_change" then "changed role of"
    else if t == "delete" then "removed"
    else if t == "upload" then "uploaded"
    else if t == "summary_create" then "created summary for"
    else if t == "settings_update" then "updated settings for"
    else if t == "workspace_create" then "created workspace"
    else "updated"
  }

  /** The verb does not depend on case. */
  lemma ActionTextIgnoresCase(actionType: string)
    ensures ActionText(ToLower(actionType)) == ActionText(actionType)
  {
    ToLowerIdempotent(actionType);
  }

  /** A lower-case string is its own lower case. */
  lemma LowerIsFixed(s: string)
    requires forall i :: 0 <= i < |s| ==> !('A' <= s[i] <= 'Z')
    ensures ToLower(s) == s
  {
    assert forall i :: 0 <= i < |s| ==> ToLower(s)[i] == s[i];
  }

  /** Every kind of entry the backend writes gets its own verb, never the fallback. */
  lemma BackendTypesHaveVerbs(a: ActivityType)
    ensures ActionText(ActivityTypeValue(a)) != "updated"
  {
    match a
    case Upload => LowerIsFixed("upload"); assert ActionVerb("upload") == "uploaded";
    case Delete => LowerIsFixed("delete"); assert ActionVerb("delete") == "removed";
    case Invite => LowerIsFixed("invite"); assert ActionVerb("invite") == "invited";
    case RoleChange => LowerIsFixed("role_change"); assert ActionVerb("role_change") == "changed role of";
    case SettingsUpdate => LowerIsFixed("settings_update"); assert ActionVerb("settings_update") == "updated settings for";
    case WorkspaceCreate => LowerIsFixed("workspace_create"); assert ActionVerb("workspace_create") == "created workspace";
    case SummaryCreate => LowerIsFixed("summary_create"); assert ActionVerb("summary_create") == "created summary for";
  }

  datatype IconTone = Blue | Green | Purple | Amber | Red

  /** `getActivityIcon`: the icon's tone, with a spelling variant for two kinds; none for others. */
  function ActivityIcon(actionType: string): (r: Option<IconTone>)
    ensures r.None? <==> ToLower(actionType) !in ICON_TYPES
  {
    IconFor(ToLower(actionType))
  }

  /** The spellings `getActivityIcon` has an icon for. */
  const ICON_TYPES: set<string> := {"upload", "invite", "role-change", "role_change", "settings", "settings_update", "delete"}

  /** The tone for a lower-case action type: each tone belongs to exactly its spellings. */
  function IconFor(t: string): (r: Option<IconTone>)
    ensures r.None? <==> t !in ICON_TYPES
    ensures r == Some(Blue) <==> t == "upload"
    ensures r == Some(Green) <==> t == "invite"
    ensures r == Some(Purple) <==> t == "role-change" || t == "role_change"
    ensures r == Some(Amber) <==> t == "settings" || t == "settings_update"
    ensures r == Some(Red) <==> t == "delete"
  {
    if t == "upload" then Some(Blue)
    else if t == "invite" then Some(Green)
    else if t == "role-change" || t == "role_change" then Some(Purple)
    else if t == "settings" || t == "settings_update" then Some(Amber)
    else if t == "delete" then Some(Red)
    else None
  }

  /**
   * Of the kinds the backend writes, exactly summary creation and workspace creation are
   * shown without an icon.
   */
  lemma IconlessBackendTypes(a: ActivityType)
    ensures ActivityIcon(ActivityTypeValue(a)).None? <==> a == SummaryCreate || a == WorkspaceCreate
  {
    match a
    case Upload => LowerIsFixed("upload"); assert IconFor("upload") == Some(Blue);
    case Delete => LowerIsFixed("delete"); assert IconFor("delete") == Some(Red);
    case Invite => LowerIsFixed("invite"); assert IconFor("invite") == Some(Green);
    case RoleChange => LowerIsFixed("role_change"); assert IconFor("role_change") == Some(Purple);
    case SettingsUpdate => LowerIsFixed("settings_update"); assert IconFor("settings_update") == Some(Amber);
    case WorkspaceCreate => LowerIsFixed("workspace_create"); assert IconFor("workspace_create") == None;
    case SummaryCreate => LowerIsFixed("summary_create"); assert IconFor("summary_create") == None;
  }

  // ---------------------------------------------------------------------------
  // avatar letters

  /**
   * The avatar as written: `user_name.split(" ").map(n => n[0]).join("").toUpperCase()`,
   * which throws, `None` here, when the name is null.
   */
  function AvatarLettersAsWritten(userName: Option<string>): (r: Option<string>)
    ensures r.None? <==> userName.None?
  {
    if userName.None? then None else Some(ToUpper(FirstLetters(Split(userName.value, ' '))))
  }

  /** The avatar reading a missing name as empty: no letters instead of an exception. */
  function AvatarLetters(userName: Option<string>): (r: string)
    ensures userName.Some? ==> Some(r) == AvatarLettersAsWritten(userName)
    ensures userName.None? || userName == Some("") ==> r == ""
  {
    assert FirstLetters(Split("", ' ')) == "";
    ToUpper(FirstLetters(Split(if userName.Some? then userName.value else "", ' ')))
  }

  /**
   * The backend sends a null name for an actor who has no full name, so as written that
   * actor's entry throws while the feed renders; the corrected avatar has no letters.
   */
  lemma NamelessActorBreaksFeed(entry: ActivityLog, actor: User)
    requires entry.userId == actor.id && actor.fullName == None
    ensures View(entry, map[actor.id := actor]).userName == None
    ensures AvatarLettersAsWritten(View(entry, map[actor.id := actor]).userName) == None
    ensures AvatarLetters(View(entry, map[actor.id := actor]).userName) == ""
  {
  }
}
