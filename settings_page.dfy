/** The settings page (`src/components/SettingsPage.tsx`): profile fields with a password
    confirmation check, notification switches, and the two-factor setup steps (switch on, show
    a generated secret, verify a six-digit code, or cancel; switch off). Storage writes and
    toasts are recorded; the random draws for the secret are a parameter. */
module SettingsPage {
  import opened Wrappers

  datatype Profile = Profile(email: string, currentPassword: string, newPassword: string, confirmPassword: string)
  datatype Notifications = Notifications(emailNotifications: bool, deviceAlerts: bool,
                                         validationResults: bool, marketingEmails: bool)

  /** The `name` attributes of the profile inputs and the keys of the notification switches. */
  datatype ProfileField = Email | CurrentPassword | NewPassword | ConfirmPassword
  datatype NotificationField = EmailNotifications | DeviceAlerts | ValidationResults | MarketingEmails

  const InitialProfile := Profile("user@example.com", "", "", "")
  const InitialNotifications := Notifications(true, true, true, false)

  /** The base32 alphabet of section 6 of RFC 4648. */
  const Base32Alphabet := "ABCDEFGHIJKLMNOPQRSTUVWXYZ234567"

  /** Sixteen characters of the base32 alphabet. */
  predicate IsSecret(s: string) {
    |s| == 16 && forall i :: 0 <= i < |s| ==> s[i] in Base32Alphabet
  }

  /** The mock secret: sixteen draws of `Math.floor(Math.random() * 32)`, each picking one
      character of the alphabet. */
  function MockSecret(draws: seq<nat>): (s: string)
    requires |draws| == 16 && forall i :: 0 <= i < 16 ==> draws[i] < 32
    ensures IsSecret(s)
    ensures forall i :: 0 <= i < 16 ==> s[i] == Base32Alphabet[draws[i]]
  {
    seq(16, i requires 0 <= i < 16 => Base32Alphabet[draws[i]])
  }

  /** Every secret is some sequence of draws: the generator can produce each of them. */
  lemma {:induction false} EverySecretIsDrawn(s: string)
    requires IsSecret(s)
    ensures exists draws: seq<nat> :: |draws| == 16 && (forall i :: 0 <= i < 16 ==> draws[i] < 32)
                                        && MockSecret(draws) == s
  {
    var draws := seq(16, i requires 0 <= i < 16 => IndexIn(s[i], Base32Alphabet));
    assert MockSecret(draws) == s;
  }

  function IndexIn(c: char, t: string): (k: nat)
    requires c in t
    ensures k < |t| && t[k] == c
  {
    if t[0] == c then 0 else 1 + IndexIn(c, t[1..])
  }

  /** `/^\d{6}$/.test(code)`. */
  predicate IsSixDigitCode(code: string) {
    |code| == 6 && forall i :: 0 <= i < 6 ==> '0' <= code[i] <= '9'
  }

  /** The check `handleSaveProfile` makes: an empty new password, or one the confirmation
      repeats. */
  predicate PasswordsConsistent(p: Profile) {
    p.newPassword == "" || p.newPassword == p.confirmPassword
  }

  /** The profile kept after a save: the same email, all three password fields empty. */
  function ClearPasswords(p: Profile): (r: Profile)
    ensures r.email == p.email && PasswordsConsistent(r)
    ensures r.currentPassword == "" && r.newPassword == "" && r.confirmPassword == ""
  {
    p.(currentPassword := "", newPassword := "", confirmPassword := "")
  }

  datatype Toast = Toast(title: string, description: string, destructive: bool)

  const PasswordErrorToast := Toast("Password Error", "New passwords do not match", true)
  const ProfileSavedToast := Toast("Profile Updated", "Your profile settings have been saved", false)
  const NotificationsSavedToast := Toast("Notification Settings Updated", "Your notification preferences have been saved", false)
  const EnabledToast := Toast("2FA Enabled", "Two-factor authentication has been activated", false)
  const InvalidCodeToast := Toast("Invalid Code", "Please enter a valid 6-digit code", true)
  const DisabledToast := Toast("2FA Disabled", "Two-factor authentication has been deactivated", false)

  class SettingsPage {
    var profile: Profile
    var notifications: Notifications
    var twoFAEnabled: bool
    var twoFASetupStep: int
    var twoFASecret: string
    var twoFACode: string
    /** What storage holds under `geoProofProfile` and `geoProofNotifications`. */
    var savedProfile: Option<Profile>
    var savedNotifications: Option<Notifications>
    var toasts: seq<Toast>

    /** The two-factor state machine: step 0 (idle) or 1 (setting up); 2FA is enabled only at
        step 0; during setup a secret is on show; any secret is a sixteen-character base32
        string. */
    ghost predicate Valid()
      reads this
    {
      (twoFASetupStep == 0 || twoFASetupStep == 1)
      && (twoFAEnabled ==> twoFASetupStep == 0)
      && (twoFASetupStep == 1 ==> IsSecret(twoFASecret))
      && (twoFASecret == "" || IsSecret(twoFASecret))
    }

    constructor()
      ensures Valid()
      ensures profile == InitialProfile && notifications == InitialNotifications
      ensures !twoFAEnabled && twoFASetupStep == 0 && twoFASecret == "" && twoFACode == ""
      ensures savedProfile == None && savedNotifications == None && toasts == []
    {
      profile := InitialProfile;
      notifications := InitialNotifications;
      twoFAEnabled := false;
      twoFASetupStep := 0;
      twoFASecret := "";
      twoFACode := "";
      savedProfile := None;
      savedNotifications := None;
      toasts := [];
    }

    /** `handleProfileChange`: exactly the named field takes the typed value. */
    method HandleProfileChange(field: ProfileField, value: string)
      modifies this
      ensures profile.email == (if field == Email then value else old(profile.email))
      ensures profile.currentPassword == (if field == CurrentPassword then value else old(profile.currentPassword))
      ensures profile.newPassword == (if field == NewPassword then value else old(profile.newPassword))
      ensures profile.confirmPassword == (if field == ConfirmPassword then value else old(profile.confirmPassword))
      ensures notifications == old(notifications) && twoFAEnabled == old(twoFAEnabled)
      ensures twoFASetupStep == old(twoFASetupStep) && twoFASecret == old(twoFASecret) && twoFACode == old(twoFACode)
      ensures savedProfile == old(savedProfile) && savedNotifications == old(savedNotifications) && toasts == old(toasts)
    {
      match field {
        case Email => profile := profile.(email := value);
        case CurrentPassword => profile := profile.(currentPassword := value);
        case NewPassword => profile := profile.(newPassword := value);
        case ConfirmPassword => profile := profile.(confirmPassword := value);
      }
    }

    /** `handleNotificationChange`: exactly the named switch takes the new position. The three
        switches below the first are disabled while e-mail notifications are off. */
    method HandleNotificationChange(field: NotificationField, checked: bool)
      requires field == EmailNotifications || notifications.emailNotifications
      modifies this
      ensures notifications.emailNotifications == (if field == EmailNotifications then checked else old(notifications.emailNotifications))
      ensures notifications.deviceAlerts == (if field == DeviceAlerts then checked else old(notifications.deviceAlerts))
      ensures notifications.validationResults == (if field == ValidationResults then checked else old(notifications.validationResults))
      ensures notifications.marketingEmails == (if field == MarketingEmails then checked else old(notifications.marketingEmails))
      ensures profile == old(profile) && twoFAEnabled == old(twoFAEnabled)
      ensures twoFASetupStep == old(twoFASetupStep) && twoFASecret == old(twoFASecret) && twoFACode == old(twoFACode)
      ensures savedProfile == old(savedProfile) && savedNotifications == old(savedNotifications) && toasts == old(toasts)
    {
      match field {
        case EmailNotifications => notifications := notifications.(emailNotifications := checked);
        case DeviceAlerts => notifications := notifications.(deviceAlerts := checked);
        case ValidationResults => notifications := notifications.(validationResults := checked);
        case MarketingEmails => notifications := notifications.(marketingEmails := checked);
      }
    }

    /** `handleSaveProfile`: a new password the confirmation does not repeat stops the save with
        an error toast; otherwise the profile is stored and the password fields are cleared. The
        form submits only with an e-mail address filled in. */
    method HandleSaveProfile()
      requires profile.email != ""
      modifies this
      ensures !PasswordsConsistent(old(profile)) ==>
        profile == old(profile) && savedProfile == old(savedProfile) && toasts == old(toasts) + [PasswordErrorToast]
      ensures PasswordsConsistent(old(profile)) ==>
        (savedProfile == Some(old(profile)) && profile == ClearPasswords(old(profile))
         && toasts == old(toasts) + [ProfileSavedToast])
      ensures notifications == old(notifications) && twoFAEnabled == old(twoFAEnabled)
      ensures twoFASetupStep == old(twoFASetupStep) && twoFASecret == old(twoFASecret) && twoFACode == old(twoFACode)
      ensures savedNotifications == old(savedNotifications)
    {
      if profile.newPassword != "" && profile.newPassword != profile.confirmPassword {
        toasts := toasts + [PasswordErrorToast];
        return;
      }
      savedProfile := Some(profile);
      toasts := toasts + [ProfileSavedToast];
      profile := profile.(currentPassword := "", newPassword := "", confirmPassword := "");
    }

    /** `handleSaveNotifications`: the switches are stored. */
    method HandleSaveNotifications()
      modifies this
      ensures savedNotifications == Some(notifications) && toasts == old(toasts) + [NotificationsSavedToast]
      ensures profile == old(profile) && notifications == old(notifications) && twoFAEnabled == old(twoFAEnabled)
      ensures twoFASetupStep == old(twoFASetupStep) && twoFASecret == old(twoFASecret) && twoFACode == old(twoFACode)
      ensures savedProfile == old(savedProfile)
    {
      savedNotifications := Some(notifications);
      toasts := toasts + [NotificationsSavedToast];
    }

    /** Sets the setup step, then runs the secret-generation effect when the step changed: on
        entering step 1 without a secret, a new one is drawn. */
    method SetSetupStep(step: int, draws: seq<nat>)
      requires step == 0 || step == 1
      requires step == 1 ==> |draws| == 16 && forall i :: 0 <= i < 16 ==> draws[i] < 32
      requires Valid() && (step == 1 ==> !twoFAEnabled)
      modifies this
      ensures Valid() && twoFASetupStep == step
      ensures twoFASecret == (if step == 1 && old(twoFASetupStep) != 1 && old(twoFASecret) == ""
                              then MockSecret(draws) else old(twoFASecret))
      ensures profile == old(profile) && notifications == old(notifications) && twoFAEnabled == old(twoFAEnabled)
      ensures twoFACode == old(twoFACode) && savedProfile == old(savedProfile)
      ensures savedNotifications == old(savedNotifications) && toasts == old(toasts)
    {
      var changed := twoFASetupStep != step;
      twoFASetupStep := step;
      if changed && twoFASetupStep == 1 && twoFASecret == "" {
        twoFASecret := MockSecret(draws);
      }
    }

    /** The code input of the setup card, which takes at most six characters. */
    method SetTwoFACode(value: string)
      requires |value| <= 6
      modifies this
      ensures twoFACode == value
      ensures profile == old(profile) && notifications == old(notifications) && twoFAEnabled == old(twoFAEnabled)
      ensures twoFASetupStep == old(twoFASetupStep) && twoFASecret == old(twoFASecret)
      ensures savedProfile == old(savedProfile) && savedNotifications == old(savedNotifications) && toasts == old(toasts)
    {
      twoFACode := value;
    }

    /** `verifyTwoFACode`, offered while setting up: a six-digit code enables 2FA and ends setup;
        anything else only shows an error. */
    method VerifyTwoFACode()
      requires Valid() && twoFASetupStep > 0 && !twoFAEnabled
      modifies this
      ensures Valid()
      ensures IsSixDigitCode(old(twoFACode)) ==>
        twoFAEnabled && twoFASetupStep == 0 && toasts == old(toasts) + [EnabledToast]
      ensures !IsSixDigitCode(old(twoFACode)) ==>
        !twoFAEnabled && twoFASetupStep == old(twoFASetupStep) && toasts == old(toasts) + [InvalidCodeToast]
      ensures twoFASecret == old(twoFASecret) && twoFACode == old(twoFACode)
      ensures profile == old(profile) && notifications == old(notifications)
      ensures savedProfile == old(savedProfile) && savedNotifications == old(savedNotifications)
    {
      if IsSixDigitCode(twoFACode) {
        // Both updates land in one render, so their order does not matter.
        SetSetupStep(0, []);
        twoFAEnabled := true;
        toasts := toasts + [EnabledToast];
      } else {
        toasts := toasts + [InvalidCodeToast];
      }
    }

    /** `disableTwoFA`: 2FA off and the secret forgotten. It is reached only from the switch
        while 2FA is on, hence outside setup. */
    method DisableTwoFA()
      requires Valid() && twoFASetupStep == 0
      modifies this
      ensures Valid()
      ensures !twoFAEnabled && twoFASecret == "" && toasts == old(toasts) + [DisabledToast]
      ensures twoFASetupStep == old(twoFASetupStep) && twoFACode == old(twoFACode)
      ensures profile == old(profile) && notifications == old(notifications)
      ensures savedProfile == old(savedProfile) && savedNotifications == old(savedNotifications)
    {
      twoFAEnabled := false;
      twoFASecret := "";
      toasts := toasts + [DisabledToast];
    }

    /** The 2FA switch, which shows `twoFAEnabled` and so reports the other position: switching
        off disables 2FA; switching on only starts setup (step 1), never enables it. */
    method ToggleTwoFA(checked: bool, draws: seq<nat>)
      requires Valid() && checked != twoFAEnabled
      requires |draws| == 16 && forall i :: 0 <= i < 16 ==> draws[i] < 32
      modifies this
      ensures Valid()
      ensures !checked ==> !twoFAEnabled && twoFASecret == ""
      ensures !checked ==> twoFASetupStep == old(twoFASetupStep) && toasts == old(toasts) + [DisabledToast]
      ensures checked ==> !twoFAEnabled && twoFASetupStep == 1 && IsSecret(twoFASecret) && toasts == old(toasts)
      ensures checked ==> twoFASecret == (if old(twoFASecret) == "" then MockSecret(draws) else old(twoFASecret))
      ensures profile == old(profile) && notifications == old(notifications) && twoFACode == old(twoFACode)
      ensures savedProfile == old(savedProfile) && savedNotifications == old(savedNotifications)
    {
      if !checked {
        DisableTwoFA();
      } else {
        SetSetupStep(1, draws);
      }
    }

    /** The Cancel button of the setup card: back to step 0, 2FA still off. */
    method CancelSetup()
      requires Valid() && twoFASetupStep > 0 && !twoFAEnabled
      modifies this
      ensures Valid() && twoFASetupStep == 0 && !twoFAEnabled
      ensures twoFASecret == old(twoFASecret) && twoFACode == old(twoFACode)
      ensures profile == old(profile) && notifications == old(notifications)
      ensures savedProfile == old(savedProfile) && savedNotifications == old(savedNotifications) && toasts == old(toasts)
    {
      SetSetupStep(0, []);
    }
  }
}
