/** The profile settings form (components/settings/profile-settings.tsx): the
    avatar picker with its checks, the reset, the save that uploads a picked
    avatar and then updates the profile, the password change, and the
    account deletion. The form is wired to the profile server actions, as on
    the admin settings page. */
module ProfileSettings {
  import opened Common
  import UploadFile
  import ProfileService

  type FileRef = UploadFile.FileRef

  /** The largest avatar accepted: 5 MiB. */
  const MaxAvatarBytes: nat := 5 * 1024 * 1024

  /** Why `handleAvatarChange` rejects a picked file, checked in this order. */
  datatype AvatarProblem = NoFile | NotAnImage | TooLarge

  /** The checks of `handleAvatarChange`: `None` when the file is accepted. */
  function AvatarCheck(file: Option<FileRef>): (r: Option<AvatarProblem>)
    ensures r.None? <==> file.Some? && StartsWith(file.value.fileType, "image/") && file.value.size <= MaxAvatarBytes
    ensures r == Some(NotAnImage) <==> file.Some? && !StartsWith(file.value.fileType, "image/")
    ensures r == Some(TooLarge) <==> file.Some? && StartsWith(file.value.fileType, "image/") && file.value.size > 5242880
  {
    if file.None? then Some(NoFile)
    else if !StartsWith(file.value.fileType, "image/") then Some(NotAnImage)
    else if file.value.size > MaxAvatarBytes then Some(TooLarge)
    else None
  }

  /** The avatar URL a save sends: the uploaded file's URL when a file was
      picked, else the shown avatar when set, else the saved one. */
  function AvatarUrl(picked: bool, uploaded: string, avatar: string, savedAvatar: string): (r: string)
    ensures picked ==> r == uploaded
    ensures !picked && avatar != "" ==> r == avatar
    ensures !picked && avatar == "" ==> r == savedAvatar
  {
    if picked then uploaded else if avatar != "" then avatar else savedAvatar
  }

  /** The password change goes ahead: a new password, equal to its confirmation. */
  predicate PasswordAccepted(newPassword: string, confirmPassword: string) {
    newPassword != "" && newPassword == confirmPassword
  }

  /** The form's state. */
  class SettingsForm {
    var name: string
    var email: string
    var phone: string
    var avatar: string
    var savedAvatar: string
    var avatarFile: Option<FileRef>
    var newPassword: string
    var confirmPassword: string
    var showDeleteDialog: bool
    var location: Option<string>

    /** The initial values: each given field, or "" when null. */
    constructor (initialName: Option<string>, initialEmail: Option<string>, initialPhone: Option<string>, initialAvatar: Option<string>)
      ensures name == initialName.GetOr("") && email == initialEmail.GetOr("") && phone == initialPhone.GetOr("")
      ensures avatar == initialAvatar.GetOr("") && savedAvatar == initialAvatar.GetOr("")
      ensures avatarFile.None? && newPassword == "" && confirmPassword == "" && !showDeleteDialog && location.None?
    {
      name, email, phone := initialName.GetOr(""), initialEmail.GetOr(""), initialPhone.GetOr("");
      avatar, savedAvatar := initialAvatar.GetOr(""), initialAvatar.GetOr("");
      avatarFile := None;
      newPassword, confirmPassword := "", "";
      showDeleteDialog := false;
      location := None;
    }

    /** `handleAvatarChange`: an accepted file is previewed through its
        object URL and kept for upload; a rejected one changes nothing. */
    method HandleAvatarChange(file: Option<FileRef>, objectUrl: string) returns (problem: Option<AvatarProblem>)
      modifies this
      ensures problem == AvatarCheck(file)
      ensures problem.None? ==> avatar == objectUrl && avatarFile == file
      ensures problem.Some? ==> avatar == old(avatar) && avatarFile == old(avatarFile)
      ensures savedAvatar == old(savedAvatar) && name == old(name) && email == old(email) && phone == old(phone)
      ensures newPassword == old(newPassword) && confirmPassword == old(confirmPassword)
    {
      if file.None? {
        return Some(NoFile);
      }
      if !StartsWith(file.value.fileType, "image/") {
        return Some(NotAnImage);
      }
      if file.value.size > 5 * 1024 * 1024 {
        return Some(TooLarge);
      }
      avatar := objectUrl;
      avatarFile := file;
      problem := None;
    }

    /** `handleResetAvatar`: back to the saved avatar, with no file picked. */
    method HandleResetAvatar()
      modifies this
      ensures avatar == old(savedAvatar) && avatarFile.None?
      ensures savedAvatar == old(savedAvatar) && name == old(name) && email == old(email) && phone == old(phone)
    {
      avatar := savedAvatar;
      avatarFile := None;
    }

    /** `handleSaveProfile`: uploads a picked file (replacing the saved
        avatar's file), then sends all four fields to `updateProfile`. A
        failed upload stops before the update. After a successful update the
        saved and shown avatar are the URL sent and no file is picked; after
        any failure the avatar state is unchanged. */
    method HandleSaveProfile(storage: UploadFile.Storage, accounts: ProfileService.Accounts,
                             nowMs: nat, nowIso: string, supabaseUrl: string, bucket: string,
                             removeOk: bool, uploadOk: bool, rowWriteOk: bool, emailWriteOk: bool)
      returns (saved: bool)
      modifies this, storage, accounts
      ensures name == old(name) && email == old(email) && phone == old(phone)
      ensures !saved ==> avatar == old(avatar) && savedAvatar == old(savedAvatar) && avatarFile == old(avatarFile)
      ensures old(avatarFile).Some? && !uploadOk ==> !saved && accounts.profiles == old(accounts.profiles)
      ensures saved ==> avatarFile.None? && avatar == savedAvatar
      ensures saved && old(avatarFile).Some? ==>
                savedAvatar == UploadFile.PublicUrl(supabaseUrl, bucket, UploadFile.FilePath("avatar", nowMs, old(avatarFile).value.name))
      ensures saved && old(avatarFile).None? ==> savedAvatar == AvatarUrl(false, "", old(avatar), old(savedAvatar))
      ensures saved ==> old(accounts.CurrentUser()).Some?
      ensures saved && old(accounts.CurrentUser()).value in old(accounts.profiles) ==>
                var u := old(accounts.CurrentUser()).value;
                u in accounts.profiles && ProfileService.Avatar in accounts.profiles[u] && accounts.profiles[u][ProfileService.Avatar] == savedAvatar
      ensures old(avatarFile).Some? && old(savedAvatar) != "" ==>
                |storage.calls| > |old(storage.calls)|
                && storage.calls[|old(storage.calls)|] == UploadFile.Remove(UploadFile.OldPath(old(savedAvatar), supabaseUrl, bucket))
    {
      var avatarUrl := savedAvatar;
      if avatarFile.Some? {
        var oldImage := if savedAvatar != "" then Some(savedAvatar) else None;
        var url := UploadFile.UploadFile(storage, avatarFile.value, "avatar", oldImage, nowMs, supabaseUrl, bucket, removeOk, uploadOk);
        if url.None? {
          return false;
        }
        avatarUrl := url.value;
      } else if avatar != "" {
        avatarUrl := avatar;
      }
      var payload := ProfileService.ProfilePayload(Some(name), Some(phone), Some(avatarUrl), Some(email));
      var ok := accounts.UpdateProfile(payload, nowIso, rowWriteOk, emailWriteOk);
      if !ok {
        return false;
      }
      savedAvatar := avatarUrl;
      avatar := avatarUrl;
      avatarFile := None;
      saved := true;
    }

    /** `handleChangePassword`: an empty or unconfirmed password is refused
        without a call; otherwise `updatePassword` is called and, when it
        succeeds, both fields are cleared. */
    method HandleChangePassword(accounts: ProfileService.Accounts, ok: bool) returns (changed: bool)
      modifies this, accounts
      ensures !PasswordAccepted(old(newPassword), old(confirmPassword)) ==>
                !changed && accounts.authUsers == old(accounts.authUsers)
      ensures changed ==> PasswordAccepted(old(newPassword), old(confirmPassword)) && old(accounts.CurrentUser()).Some?
                          && old(accounts.CurrentUser()).value in accounts.authUsers
                          && accounts.authUsers[old(accounts.CurrentUser()).value].password == old(newPassword)
      ensures changed ==> newPassword == "" && confirmPassword == ""
      ensures !changed ==> newPassword == old(newPassword) && confirmPassword == old(confirmPassword)
      ensures avatar == old(avatar) && savedAvatar == old(savedAvatar) && avatarFile == old(avatarFile)
      ensures accounts.profiles == old(accounts.profiles)
    {
      if newPassword == "" || newPassword != confirmPassword {
        return false;
      }
      changed := accounts.UpdatePassword(newPassword, ok);
      if !changed {
        return false;
      }
      newPassword := "";
      confirmPassword := "";
    }

    /** `handleDeleteAccount`: after a successful `deleteAccount` the dialog
        closes and the page goes to "/"; a failure changes neither. */
    method HandleDeleteAccount(accounts: ProfileService.Accounts, storage: UploadFile.Storage, supabaseUrl: string,
                               lookupOk: bool, removeOk: bool, deleteRowOk: bool, deleteAuthOk: bool)
      returns (deleted: bool)
      modifies this, accounts, storage
      ensures deleted ==> !showDeleteDialog && location == Some("/") && accounts.session.None?
      ensures !deleted ==> showDeleteDialog == old(showDeleteDialog) && location == old(location)
      ensures avatar == old(avatar) && savedAvatar == old(savedAvatar)
    {
      var steps;
      deleted, steps := accounts.DeleteAccount(storage, supabaseUrl, lookupOk, removeOk, deleteRowOk, deleteAuthOk);
      if !deleted {
        return false;
      }
      showDeleteDialog := false;
      location := Some("/");
    }
  }
}
