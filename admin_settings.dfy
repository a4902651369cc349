/** The admin settings page (src/pages/AdminSettings.jsx): a profile that is
    edited in place and saved after a check, and a password change form. */
module AdminSettings {
  import opened Wrappers

  datatype Profile = Profile(name: string, email: string, avatar: string)

  /** The three password boxes; `newPassword` is the box the page calls `new`. */
  datatype Passwords = Passwords(current: string, newPassword: string, confirm: string)

  /** The two profile inputs; each names the field it writes. */
  datatype ProfileField = Name | Email

  const InitialProfile: Profile := Profile("Admin DPR", "admin@pantauDPR.id", "/potoDPR.png")
  const NoPasswords: Passwords := Passwords("", "", "")

  const ProfileRequired: string := "Nama & email wajib diisi!"
  const ProfileSaved: string := "Profil berhasil disimpan!"
  const PasswordsRequired: string := "Semua kolom password harus diisi!"
  const PasswordsDiffer: string := "Password baru & konfirmasi tidak sama!"
  const PasswordChanged: string := "Password berhasil diganti!"

  /** `handleChange`: the named field takes the value, the others stay. */
  function SetField(p: Profile, field: ProfileField, value: string): (q: Profile)
    ensures field == Name ==> q.name == value && q.email == p.email
    ensures field == Email ==> q.email == value && q.name == p.name
    ensures q.avatar == p.avatar
  {
    match field
    case Name => p.(name := value)
    case Email => p.(email := value)
  }

  /** Writing a field its own value back changes nothing. */
  lemma SetFieldOwnValue(p: Profile, field: ProfileField)
    ensures SetField(p, field, if field == Name then p.name else p.email) == p
  {
  }

  /** The message `handleSaveProfile` shows: a refusal exactly when the name
      or the email is empty (spaces count as filled). */
  function SaveProfileMessage(p: Profile): (msg: string)
    ensures msg == ProfileSaved <==> p.name != "" && p.email != ""
    ensures msg == ProfileRequired <==> p.name == "" || p.email == ""
  {
    if p.name == "" || p.email == "" then ProfileRequired else ProfileSaved
  }

  /** The message `handleChangePassword` shows: the first failing check, or
      success. */
  function ChangePasswordMessage(pw: Passwords): (msg: string)
    ensures msg == PasswordsRequired <==> pw.current == "" || pw.newPassword == "" || pw.confirm == ""
    ensures msg == PasswordsDiffer <==> pw.current != "" && pw.newPassword != "" && pw.confirm != "" && pw.newPassword != pw.confirm
    ensures msg == PasswordChanged <==> pw.current != "" && pw.newPassword != "" && pw.confirm != "" && pw.newPassword == pw.confirm
  {
    if pw.current == "" || pw.newPassword == "" || pw.confirm == "" then PasswordsRequired
    else if pw.newPassword != pw.confirm then PasswordsDiffer
    else PasswordChanged
  }

  /** The current password is only required to be filled in: any other
      non-empty text gives the same outcome. */
  lemma CurrentPasswordNotChecked(pw: Passwords, other: string)
    requires pw.current != "" && other != ""
    ensures ChangePasswordMessage(pw.(current := other)) == ChangePasswordMessage(pw)
  {
  }

  class AdminSettingsPage {
    var isEditing: bool
    var profile: Profile
    var passwords: Passwords

    constructor ()
      ensures !isEditing && profile == InitialProfile && passwords == NoPasswords
    {
      isEditing := false;
      profile := InitialProfile;
      passwords := NoPasswords;
    }

    /** The "Edit Profil" and "Batal" buttons. */
    method SetEditing(value: bool)
      modifies this`isEditing
      ensures isEditing == value
    {
      isEditing := value;
    }

    /** `handleChange`. */
    method HandleChange(field: ProfileField, value: string)
      modifies this`profile
      ensures profile == SetField(old(profile), field, value)
    {
      profile := SetField(profile, field, value);
    }

    /** `handleAvatarChange`: a chosen picture, taken as the address it is
      shown from, becomes the avatar; no choice changes nothing. */
    method HandleAvatarChange(url: Option<string>)
      modifies this`profile
      ensures url.Some? ==> profile == old(profile).(avatar := url.value)
      ensures url.None? ==> profile == old(profile)
    {
      if url.Some? {
        profile := profile.(avatar := url.value);
      }
    }

    /** `handleSaveProfile`, returning the alert: a refusal keeps the editing
      mode, success leaves it; the profile itself is never touched. */
    method HandleSaveProfile() returns (alert: string)
      modifies this`isEditing
      ensures alert == SaveProfileMessage(profile)
      ensures alert == ProfileRequired ==> isEditing == old(isEditing)
      ensures alert == ProfileSaved ==> !isEditing
    {
      alert := SaveProfileMessage(profile);
      if alert == ProfileRequired {
        return;
      }
      isEditing := false;
    }

    /** Typing in one of the password boxes. */
    method SetPasswords(value: Passwords)
      modifies this`passwords
      ensures passwords == value
    {
      passwords := value;
    }

    /** `handleChangePassword`, returning the alert: a refusal keeps the
      three boxes, success empties them. */
    method HandleChangePassword() returns (alert: string)
      modifies this`passwords
      ensures alert == ChangePasswordMessage(old(passwords))
      ensures alert != PasswordChanged ==> passwords == old(passwords)
      ensures alert == PasswordChanged ==> passwords == NoPasswords
    {
      alert := ChangePasswordMessage(passwords);
      if alert == PasswordChanged {
        passwords := NoPasswords;
      }
    }
  }
}
