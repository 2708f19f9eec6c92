/**
 * The account settings screen: three settings loaded from the user's
 * profile row and saved back, all three at once, by `saveSettings`, whose
 * omitted arguments default to the values currently shown. The remote
 * select and update are inputs: the fetched rows, or whether the update
 * returned normally.
 */
module SettingsScreen {
  import opened DataModels
  import Session

  /** The three settings the screen shows and saves together. */
  datatype Settings = Settings(isPrivate: bool, messagePermission: string, allowNotifications: bool)

  /** What the screen shows before its load effect has finished. */
  const Initial := Settings(false, Everyone, true)

  /** The three settings as stored in a profile row. */
  function SettingsOf(p: Profile): (s: Settings)
    ensures s.isPrivate == p.isPrivate && s.messagePermission == p.messagePermission
    ensures s.allowNotifications == p.allowNotifications
  {
    Settings(p.isPrivate, p.messagePermission, p.allowNotifications)
  }

  /**
   * The arguments `saveSettings` writes: each given argument (`Some`), else
   * the default, which is the value currently shown.
   */
  function Resolve(current: Settings, newPrivate: Option<bool>, newMsgPerm: Option<string>, newNotif: Option<bool>)
    : (r: Settings)
    ensures r.isPrivate == if newPrivate.Some? then newPrivate.value else current.isPrivate
    ensures r.messagePermission == if newMsgPerm.Some? then newMsgPerm.value else current.messagePermission
    ensures r.allowNotifications == if newNotif.Some? then newNotif.value else current.allowNotifications
  {
    Settings(
      if newPrivate.Some? then newPrivate.value else current.isPrivate,
      if newMsgPerm.Some? then newMsgPerm.value else current.messagePermission,
      if newNotif.Some? then newNotif.value else current.allowNotifications)
  }

  /** With no argument given, the save writes exactly what is shown. */
  lemma ResolveWithoutArguments(current: Settings)
    ensures Resolve(current, None, None, None) == current
  {
  }

  /** Saving the values already shown writes them back unchanged. */
  lemma ResolveCurrentIsIdentity(current: Settings)
    ensures Resolve(current, Some(current.isPrivate), Some(current.messagePermission), Some(current.allowNotifications)) == current
  {
  }

  /** Saving the same arguments a second time changes nothing more. */
  lemma ResolveIdempotent(current: Settings, newPrivate: Option<bool>, newMsgPerm: Option<string>, newNotif: Option<bool>)
    ensures var once := Resolve(current, newPrivate, newMsgPerm, newNotif);
      Resolve(once, newPrivate, newMsgPerm, newNotif) == once
  {
  }

  /** The controls of the screen, each of which calls `saveSettings` with one named argument. */
  datatype Control =
    | PrivacySwitch(checked: bool)        // the private account switch
    | EveryoneRadio                       // "everyone may message me"
    | FriendsRadio                        // "only friends may message me"
    | NotificationsSwitch(checked: bool)  // the notifications switch

  /** The message permissions the radio buttons offer. */
  predicate IsOfferedPermission(s: string) {
    s == Everyone || s == FriendsOnly
  }

  /** The one named argument each control passes; the other two are left to their defaults. */
  function ArgumentsOf(c: Control): (args: (Option<bool>, Option<string>, Option<bool>))
    ensures c.PrivacySwitch? <==> args.0.Some?
    ensures c.NotificationsSwitch? <==> args.2.Some?
    ensures (c.EveryoneRadio? || c.FriendsRadio?) <==> args.1.Some?
    ensures args.1.Some? ==> IsOfferedPermission(args.1.value)
  {
    match c
    case PrivacySwitch(b) => (Some(b), None, None)
    case EveryoneRadio => (None, Some(Everyone), None)
    case FriendsRadio => (None, Some(FriendsOnly), None)
    case NotificationsSwitch(b) => (None, None, Some(b))
  }

  /**
   * What a control's save writes, given what is shown: its own setting, set
   * to the value the control stands for, and the other two unchanged.
   */
  function Saved(current: Settings, c: Control): (r: Settings)
    ensures c.PrivacySwitch? ==> r == current.(isPrivate := c.checked)
    ensures c.EveryoneRadio? ==> r == current.(messagePermission := Everyone)
    ensures c.FriendsRadio? ==> r == current.(messagePermission := FriendsOnly)
    ensures c.NotificationsSwitch? ==> r == current.(allowNotifications := c.checked)
  {
    var args := ArgumentsOf(c);
    Resolve(current, args.0, args.1, args.2)
  }

  /** The permission a control's save writes is an offered one whenever the radio buttons were used, and is kept otherwise. */
  lemma SavedPermission(current: Settings, c: Control)
    ensures var r := Saved(current, c);
      && (IsOfferedPermission(current.messagePermission) ==> IsOfferedPermission(r.messagePermission))
      && (r.messagePermission != current.messagePermission ==> IsOfferedPermission(r.messagePermission))
  {
  }

  /**
   * The settings after a run of control saves, each taking its defaults from
   * the one before; a setting that no control of the run touches keeps its
   * value.
   */
  function SavedAll(current: Settings, cs: seq<Control>): (r: Settings)
    ensures (forall i | 0 <= i < |cs| :: !cs[i].PrivacySwitch?) ==> r.isPrivate == current.isPrivate
    ensures (forall i | 0 <= i < |cs| :: !cs[i].EveryoneRadio? && !cs[i].FriendsRadio?) ==>
      r.messagePermission == current.messagePermission
    ensures (forall i | 0 <= i < |cs| :: !cs[i].NotificationsSwitch?) ==> r.allowNotifications == current.allowNotifications
    decreases |cs|
  {
    if cs == [] then current else SavedAll(Saved(current, cs[0]), cs[1..])
  }

  /** Any run of control saves keeps an offered permission offered. */
  lemma {:induction false} SavedAllKeepsOfferedPermission(current: Settings, cs: seq<Control>)
    requires IsOfferedPermission(current.messagePermission)
    ensures IsOfferedPermission(SavedAll(current, cs).messagePermission)
    decreases |cs|
  {
    if cs != [] {
      SavedPermission(current, cs[0]);
      SavedAllKeepsOfferedPermission(Saved(current, cs[0]), cs[1..]);
    }
  }

  /** The settings screen's state. */
  class SettingsScreen {
    const username: string
    var isPrivate: bool
    var messagePermission: string
    var allowNotifications: bool
    var isLoading: bool

    /** `email` is the signed-in user's address, if there is one. */
    constructor (email: Option<string>)
      ensures username == Session.CurrentUsername(email)
      ensures Current() == Initial && isLoading
    {
      username := Session.CurrentUsername(email);
      isPrivate := false;
      messagePermission := Everyone;
      allowNotifications := true;
      isLoading := true;
    }

    /** The three settings shown. */
    function Current(): Settings
      reads this
    {
      Settings(isPrivate, messagePermission, allowNotifications)
    }

    /**
     * The launch effect. `rows` is the profiles matching the username, or
     * None when the select threw; nothing catches that, so the effect ends
     * there and the spinner stays. Otherwise the first row's settings are
     * shown (the current ones are kept without a row) and loading ends.
     */
    method Load(rows: Option<seq<Profile>>)
      modifies this`isPrivate, this`messagePermission, this`allowNotifications, this`isLoading
      ensures rows == None ==> Current() == old(Current()) && isLoading == old(isLoading)
      ensures rows.Some? && rows.value != [] ==> Current() == SettingsOf(rows.value[0]) && !isLoading
      ensures rows == Some([]) ==> Current() == old(Current()) && !isLoading
    {
      if rows.None? {
        return;
      }
      var list := rows.value;
      if list != [] {
        var p := list[0];
        isPrivate := p.isPrivate;
        messagePermission := p.messagePermission;
        allowNotifications := p.allowNotifications;
      }
      isLoading := false;
    }

    /**
     * `saveSettings`. A `None` argument is one the caller left out. The
     * defaults are taken from the state when the call is made; `written` is
     * what the remote update sends, and the shown settings become it only
     * once the update returned normally (`updateOk`).
     */
    method SaveSettings(newPrivate: Option<bool>, newMsgPerm: Option<string>, newNotif: Option<bool>, updateOk: bool)
      returns (written: Settings)
      modifies this`isPrivate, this`messagePermission, this`allowNotifications
      ensures written == Resolve(old(Current()), newPrivate, newMsgPerm, newNotif)
      ensures Current() == if updateOk then written else old(Current())
    {
      written := Settings(
        if newPrivate.Some? then newPrivate.value else isPrivate,
        if newMsgPerm.Some? then newMsgPerm.value else messagePermission,
        if newNotif.Some? then newNotif.value else allowNotifications);
      if updateOk {
        isPrivate := written.isPrivate;
        messagePermission := written.messagePermission;
        allowNotifications := written.allowNotifications;
      }
    }

    /** A control used on the screen: its save, with the one argument it names. */
    method OnControl(c: Control, updateOk: bool)
      modifies this`isPrivate, this`messagePermission, this`allowNotifications
      ensures Current() == if updateOk then Saved(old(Current()), c) else old(Current())
      ensures IsOfferedPermission(old(messagePermission)) ==> IsOfferedPermission(messagePermission)
    {
      var args := ArgumentsOf(c);
      var written := SaveSettings(args.0, args.1, args.2, updateOk);
      SavedPermission(old(Current()), c);
    }
  }
}
