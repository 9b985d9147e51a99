/** The contact dialog (components/chat/user-info-dialog.tsx): its display name, the
    "last active" wording, and the rename editor's state. */
module UserInfoDialog {
  import opened Common
  import ChatWindow

  /** `getDisplayName`: custom name, else WhatsApp name, else the id. Unlike the chat
      window's, it never uses the `name` column. */
  function DisplayName(u: ChatWindow.ChatUser): string {
    FirstTruthy([u.customName, u.whatsappName], u.id)
  }

  lemma DisplayNameChain(u: ChatWindow.ChatUser)
    ensures Present(u.customName) ==> DisplayName(u) == u.customName.value
    ensures !Present(u.customName) && Present(u.whatsappName) ==> DisplayName(u) == u.whatsappName.value
    ensures !Present(u.customName) && !Present(u.whatsappName) ==> DisplayName(u) == u.id
  {
    var c := [u.customName, u.whatsappName];
    assert !Present(c[0]) && Present(c[1]) ==> DisplayName(u) == c[1].value;
  }

  /** The two dialogs agree whenever a custom or WhatsApp name is set; they differ only
      on a contact known by its `name` column alone. */
  lemma DisplayNamesAgree(u: ChatWindow.ChatUser)
    ensures Present(u.customName) || Present(u.whatsappName) ==> DisplayName(u) == ChatWindow.DisplayName(u)
    ensures !Present(u.customName) && !Present(u.whatsappName) && u.name != "" && u.name != u.id ==>
              DisplayName(u) != ChatWindow.DisplayName(u)
  {
    DisplayNameChain(u);
    ChatWindow.DisplayNameChain(u);
  }

  // ---------------------------------------------------------------------------
  // `formatLastActive`. Times are milliseconds since the epoch; `None` is a
  // timestamp that does not parse (`NaN`), for which every comparison fails.

  const MinuteMs := 60000
  const HourMs := 3600000
  const DayMs := 86400000

  datatype LastActive = JustNow | MinutesAgo(minutes: nat) | HoursAgo(hours: nat) | DaysAgo(days: nat) | OnDate

  function Abs(x: int): nat {
    if x < 0 then -x else x
  }

  /** The bucket of an absolute difference: under a minute, under an hour, under a day,
      under a week, or a date. */
  function Bucket(nowMs: int, ts: Option<int>): (b: LastActive)
    ensures ts.None? ==> b == OnDate
    ensures ts.Some? ==>
              var d := Abs(nowMs - ts.value);
              && (b == JustNow <==> d < MinuteMs)
              && (b.MinutesAgo? <==> MinuteMs <= d < HourMs)
              && (b.HoursAgo? <==> HourMs <= d < DayMs)
              && (b.DaysAgo? <==> DayMs <= d < 7 * DayMs)
              && (b == OnDate <==> 7 * DayMs <= d)
    ensures b.MinutesAgo? ==> 1 <= b.minutes < 60 && b.minutes == Abs(nowMs - ts.value) / MinuteMs
    ensures b.HoursAgo? ==> 1 <= b.hours < 24 && b.hours == Abs(nowMs - ts.value) / HourMs
    ensures b.DaysAgo? ==> 1 <= b.days < 7 && b.days == Abs(nowMs - ts.value) / DayMs
  {
    if ts.None? then OnDate
    else
      var d := Abs(nowMs - ts.value);
      if d < MinuteMs then JustNow
      else if d < HourMs then MinutesAgo(d / MinuteMs)
      else if d < DayMs then HoursAgo(d / HourMs)
      else if d / DayMs < 7 then DaysAgo(d / DayMs)
      else OnDate
  }

  /** `"s"` unless the count is one. */
  function Plural(n: nat): string {
    if n != 1 then "s" else ""
  }

  /** The wording of a bucket, which is `formatLastActive`'s result; a date is rendered by the locale, so `date` is a parameter. The
      minute label is always plural, as written. */
  function Label(b: LastActive, date: string): string {
    match b
    case JustNow => "Just now"
    case MinutesAgo(n) => NatToString(n) + " minutes ago"
    case HoursAgo(n) => NatToString(n) + " hour" + Plural(n) + " ago"
    case DaysAgo(n) => NatToString(n) + " day" + Plural(n) + " ago"
    case OnDate => date
  }

  /** `formatLastActive`'s wording for each range of the absolute difference between
      now and the timestamp: "Just now" under a minute; whole minutes, always with
      "minutes", under an hour; whole hours under a day and whole days under a week,
      singular only for one; otherwise, and for a timestamp that does not parse, the
      locale's date. */
  lemma LastActiveWording(nowMs: int, ts: Option<int>, date: string)
    ensures ts.None? ==> Label(Bucket(nowMs, ts), date) == date
    ensures ts.Some? ==>
              var d := Abs(nowMs - ts.value);
              var r := Label(Bucket(nowMs, ts), date);
              && (d < MinuteMs ==> r == "Just now")
              && (MinuteMs <= d < HourMs ==> r == NatToString(d / MinuteMs) + " minutes ago")
              && (HourMs <= d < DayMs ==>
                    r == NatToString(d / HourMs) + (if d / HourMs == 1 then " hour ago" else " hours ago"))
              && (DayMs <= d < 7 * DayMs ==>
                    r == NatToString(d / DayMs) + (if d / DayMs == 1 then " day ago" else " days ago"))
              && (7 * DayMs <= d ==> r == date)
  {
  }

  /** A time as far in the future as another is in the past gets the same words. */
  lemma FutureAndPastAlike(nowMs: int, delta: int, date: string)
    ensures Label(Bucket(nowMs, Some(nowMs - delta)), date) == Label(Bucket(nowMs, Some(nowMs + delta)), date)
  {
  }

  /** Hour and day labels are singular exactly for a count of one: they say "s ago"
      at the end otherwise. */
  lemma SingularExactlyForOne(b: LastActive, date: string)
    requires b.HoursAgo? || b.DaysAgo?
    ensures var n := if b.HoursAgo? then b.hours else b.days;
            var r := Label(b, date);
            (n == 1 <==> !(|r| >= 5 && r[|r| - 5..] == "s ago"))
  {
    var n := if b.HoursAgo? then b.hours else b.days;
    var r := Label(b, date);
    var unit := if b.HoursAgo? then " hour" else " day";
    assert r == NatToString(n) + unit + Plural(n) + " ago";
    if n == 1 {
      assert NatToString(1) == "1";
      if b.HoursAgo? {
        assert r == "1 hour ago";
      } else {
        assert r == "1 day ago";
      }
    } else {
      assert r[|r| - 5..] == "s ago";
    }
  }

  // ---------------------------------------------------------------------------
  // The rename editor. `customName` is the contact's stored custom name as the
  // dialog reads it at the moment of each handler.

  class NameEditor {
    var isEditing: bool
    var editingName: string
    var isUpdating: bool

    constructor(customName: Option<string>)
      ensures !isEditing && !isUpdating && editingName == OrEmpty(customName)
    {
      isEditing := false;
      editingName := OrEmpty(customName);
      isUpdating := false;
    }

    /** `handleStartEdit`. */
    method StartEdit(customName: Option<string>)
      modifies this
      ensures isEditing && editingName == OrEmpty(customName) && isUpdating == old(isUpdating)
    {
      editingName := OrEmpty(customName);
      isEditing := true;
    }

    /** `handleCancelEdit`. */
    method CancelEdit(customName: Option<string>)
      modifies this
      ensures !isEditing && editingName == OrEmpty(customName) && isUpdating == old(isUpdating)
    {
      editingName := OrEmpty(customName);
      isEditing := false;
    }

    /** `handleSaveName` up to the store call: ignored while a save is running,
        otherwise marks the save as running and submits the trimmed name. */
    method BeginSave() returns (submitted: Option<string>)
      modifies this
      ensures isUpdating
      ensures old(isUpdating) ==> submitted.None?
      ensures !old(isUpdating) ==> submitted.Some? && submitted.value == Trim(editingName)
      ensures isEditing == old(isEditing) && editingName == old(editingName)
    {
      var trimmed := Trim(editingName);
      if isUpdating {
        submitted := None;
      } else {
        isUpdating := true;
        submitted := Some(trimmed);
      }
    }

    /** The rest of `handleSaveName` once the store call settled: success ends the
        edit, failure restores the stored name, and the save is over either way. */
    method FinishSave(succeeded: bool, customName: Option<string>)
      requires isUpdating
      modifies this
      ensures !isUpdating
      ensures succeeded ==> !isEditing && editingName == old(editingName)
      ensures !succeeded ==> isEditing == old(isEditing) && editingName == OrEmpty(customName)
    {
      if succeeded {
        isEditing := false;
      } else {
        editingName := OrEmpty(customName);
      }
      isUpdating := false;
    }
  }
}
