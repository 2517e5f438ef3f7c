/**
 * The settings page: the theme switch, five notification switches and the
 * change-password form with its guard and its simulated save.
 */
module Settings {
  datatype Notifications = Notifications(email: bool, slack: bool, desktop: bool, mentions: bool, updates: bool)

  const InitialNotifications := Notifications(true, true, false, true, true)

  datatype NotificationKey = EmailKey | SlackKey | DesktopKey | MentionsKey | UpdatesKey

  function Setting(n: Notifications, key: NotificationKey): bool {
    match key
    case EmailKey => n.email
    case SlackKey => n.slack
    case DesktopKey => n.desktop
    case MentionsKey => n.mentions
    case UpdatesKey => n.updates
  }

  /** `setNotifications({ ...notifications, <key>: checked })`. */
  function WithSetting(n: Notifications, key: NotificationKey, checked: bool): (r: Notifications)
    ensures forall k :: Setting(r, k) == if k == key then checked else Setting(n, k)
  {
    match key
    case EmailKey => n.(email := checked)
    case SlackKey => n.(slack := checked)
    case DesktopKey => n.(desktop := checked)
    case MentionsKey => n.(mentions := checked)
    case UpdatesKey => n.(updates := checked)
  }

  /** Only desktop notifications start switched off. */
  lemma InitialSettings(k: NotificationKey)
    ensures Setting(InitialNotifications, k) <==> k != DesktopKey
  {
  }

  /** Switching back to the value already held restores the record. */
  lemma WithSettingRestores(n: Notifications, key: NotificationKey, checked: bool)
    ensures WithSetting(WithSetting(n, key, checked), key, Setting(n, key)) == n
  {
    var r := WithSetting(WithSetting(n, key, checked), key, Setting(n, key));
    assert Setting(r, EmailKey) == n.email && Setting(r, SlackKey) == n.slack;
    assert Setting(r, DesktopKey) == n.desktop && Setting(r, MentionsKey) == n.mentions;
    assert Setting(r, UpdatesKey) == n.updates;
  }

  datatype PasswordData = PasswordData(current: string, newPassword: string, confirm: string)

  const EmptyPasswords := PasswordData("", "", "")

  datatype PasswordField = CurrentField | NewField | ConfirmField

  function PasswordValue(p: PasswordData, field: PasswordField): string {
    match field
    case CurrentField => p.current
    case NewField => p.newPassword
    case ConfirmField => p.confirm
  }

  /** `setPasswordData({ ...passwordData, <field>: value })`. */
  function WithPassword(p: PasswordData, field: PasswordField, value: string): (r: PasswordData)
    ensures forall g :: PasswordValue(r, g) == if g == field then value else PasswordValue(p, g)
  {
    match field
    case CurrentField => p.(current := value)
    case NewField => p.(newPassword := value)
    case ConfirmField => p.(confirm := value)
  }

  /** The "Update Password" button's `disabled` expression. */
  predicate SaveDisabled(isSaving: bool, p: PasswordData) {
    isSaving || p.current == "" || p.newPassword == "" || p.confirm == ""
  }

  datatype SaveOutcome = PasswordsDiffer | PasswordUpdated

  /** One keystroke's worth of input: a field and the text it now holds. */
  datatype PasswordWrite = PasswordWrite(field: PasswordField, value: string)

  /** The form after the user edits it, one input event after another. */
  function AfterWrites(p: PasswordData, writes: seq<PasswordWrite>): PasswordData
    decreases |writes|
  {
    if writes == [] then p
    else AfterWrites(WithPassword(p, writes[0].field, writes[0].value), writes[1..])
  }

  /** After a run of edits, a field holds the text of the last edit of that
      field, or its old text when no edit touched it; either way the text
      is the old one or that of some edit of the field. */
  lemma {:induction false} AfterWritesValue(p: PasswordData, writes: seq<PasswordWrite>, f: PasswordField)
    ensures (forall j :: 0 <= j < |writes| ==> writes[j].field != f) ==>
      PasswordValue(AfterWrites(p, writes), f) == PasswordValue(p, f)
    ensures forall i ::
      0 <= i < |writes| && writes[i].field == f && (forall j :: i < j < |writes| ==> writes[j].field != f)
      ==> PasswordValue(AfterWrites(p, writes), f) == writes[i].value
    ensures var v := PasswordValue(AfterWrites(p, writes), f);
      v == PasswordValue(p, f) ||
      exists i :: 0 <= i < |writes| && writes[i].field == f && writes[i].value == v
    decreases |writes|
  {
    if writes != [] {
      var q := WithPassword(p, writes[0].field, writes[0].value);
      var rest := writes[1..];
      AfterWritesValue(q, rest, f);
      var v := PasswordValue(AfterWrites(p, writes), f);
      assert AfterWrites(p, writes) == AfterWrites(q, rest);
      forall i | 0 <= i < |writes| && writes[i].field == f &&
        (forall j :: i < j < |writes| ==> writes[j].field != f)
        ensures v == writes[i].value
      {
        if i == 0 {
          assert forall j :: 0 <= j < |rest| ==> rest[j].field == writes[j + 1].field;
        } else {
          assert rest[i - 1] == writes[i];
          assert forall j :: i - 1 < j < |rest| ==> rest[j].field == writes[j + 1].field;
        }
      }
      if (forall j :: 0 <= j < |writes| ==> writes[j].field != f) {
        assert writes[0].field != f;
        assert forall j :: 0 <= j < |rest| ==> rest[j].field == writes[j + 1].field;
      }
      if v != PasswordValue(p, f) {
        if v == PasswordValue(q, f) {
          assert writes[0].field == f && writes[0].value == v;
        } else {
          var i :| 0 <= i < |rest| && rest[i].field == f && rest[i].value == v;
          assert writes[i + 1] == rest[i];
        }
      }
    }
  }

  /** Once a save has emptied the form, the button stays disabled until every
      one of the three fields has been given non-empty text again. */
  lemma SaveStaysDisabledUntilFilled(writes: seq<PasswordWrite>, f: PasswordField)
    requires !SaveDisabled(false, AfterWrites(EmptyPasswords, writes))
    ensures exists i :: 0 <= i < |writes| && writes[i].field == f && writes[i].value != ""
  {
    AfterWritesValue(EmptyPasswords, writes, f);
  }

  /** The switch's toast text for the theme it switches to. */
  function ThemeMessage(dark: bool): string {
    if dark then "Switched to dark mode" else "Switched to light mode"
  }

  class SettingsPage {
    var isDarkMode: bool
    var showPassword: bool
    var isSaving: bool
    var notifications: Notifications
    var passwordData: PasswordData

    constructor ()
      ensures !isDarkMode && !showPassword && !isSaving
      ensures notifications == InitialNotifications && passwordData == EmptyPasswords
    {
      isDarkMode := false;
      showPassword := false;
      isSaving := false;
      notifications := InitialNotifications;
      passwordData := EmptyPasswords;
    }

    /** Flips the theme; returns the toast text naming the new theme. */
    method HandleThemeToggle() returns (message: string)
      modifies this
      ensures isDarkMode == !old(isDarkMode) && message == ThemeMessage(isDarkMode)
      ensures showPassword == old(showPassword) && isSaving == old(isSaving)
      ensures notifications == old(notifications) && passwordData == old(passwordData)
    {
      message := ThemeMessage(!isDarkMode);
      isDarkMode := !isDarkMode;
    }

    method SetNotification(key: NotificationKey, checked: bool)
      modifies this
      ensures notifications == WithSetting(old(notifications), key, checked)
      ensures isDarkMode == old(isDarkMode) && showPassword == old(showPassword)
      ensures isSaving == old(isSaving) && passwordData == old(passwordData)
    {
      notifications := WithSetting(notifications, key, checked);
    }

    method SetPasswordField(field: PasswordField, value: string)
      modifies this
      ensures passwordData == WithPassword(old(passwordData), field, value)
      ensures isDarkMode == old(isDarkMode) && showPassword == old(showPassword)
      ensures isSaving == old(isSaving) && notifications == old(notifications)
    {
      passwordData := WithPassword(passwordData, field, value);
    }

    method ToggleShowPassword()
      modifies this
      ensures showPassword == !old(showPassword)
      ensures isDarkMode == old(isDarkMode) && isSaving == old(isSaving)
      ensures notifications == old(notifications) && passwordData == old(passwordData)
    {
      showPassword := !showPassword;
    }

    /** `handleSavePassword` up to the simulated request: a mismatch stops here
        and changes nothing, otherwise the page starts saving. */
    method BeginSavePassword() returns (o: SaveOutcome)
      modifies this
      ensures o == PasswordsDiffer <==> old(passwordData).newPassword != old(passwordData).confirm
      ensures o == PasswordsDiffer ==> isSaving == old(isSaving)
      ensures o == PasswordUpdated ==> isSaving && SaveDisabled(isSaving, passwordData)
      ensures passwordData == old(passwordData)
      ensures isDarkMode == old(isDarkMode) && showPassword == old(showPassword) && notifications == old(notifications)
    {
      if passwordData.newPassword != passwordData.confirm {
        return PasswordsDiffer;
      }
      isSaving := true;
      o := PasswordUpdated;
    }

    /** The rest of `handleSavePassword`, once the request has finished. */
    method FinishSavePassword()
      modifies this
      ensures !isSaving && passwordData == EmptyPasswords
      ensures isDarkMode == old(isDarkMode) && showPassword == old(showPassword) && notifications == old(notifications)
    {
      isSaving := false;
      passwordData := EmptyPasswords;
    }

    method HandleSavePassword() returns (o: SaveOutcome)
      modifies this
      ensures o == PasswordsDiffer <==> old(passwordData).newPassword != old(passwordData).confirm
      ensures o == PasswordsDiffer ==> isSaving == old(isSaving) && passwordData == old(passwordData)
      ensures o == PasswordUpdated ==> !isSaving && passwordData == EmptyPasswords
      ensures o == PasswordUpdated ==> SaveDisabled(isSaving, passwordData)
      ensures isDarkMode == old(isDarkMode) && showPassword == old(showPassword) && notifications == old(notifications)
    {
      o := BeginSavePassword();
      if o == PasswordUpdated {
        FinishSavePassword();
      }
    }
  }
}
