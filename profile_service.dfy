/** The profile server actions (service/profile.service.ts): the update
    record of `updateProfile` and which writes it makes, `updatePassword`,
    and the fixed chain of deletions of `deleteAccount`.

    The `users` table maps a user id to its row, a map from column to value
    (a null column is absent). The auth users and the signed-in session are
    fields as well; whether each backend call succeeds is an input. */
module ProfileService {
  import opened Common
  import UploadFile

  /** The fields `updateProfile` is given; `None` is an undefined field. */
  datatype ProfilePayload = ProfilePayload(name: Option<string>, phone: Option<string>, avatar: Option<string>, email: Option<string>)

  /** A column of the `users` table. The model names the columns
      `updateProfile` writes; every other column is `Other`. */
  datatype Column = UpdatedAt | Name | Phone | Avatar | Email | Other(column: string)

  type Row = map<Column, string>

  /** An auth user: the sign-in email and the password. */
  datatype AuthUser = AuthUser(email: string, password: string)

  /** `updates`: `updated_at`, then each payload field that is defined. */
  function UpdateRecord(payload: ProfilePayload, now: string): (r: Row)
    ensures UpdatedAt in r && r[UpdatedAt] == now
    ensures (Name in r <==> payload.name.Some?) && (payload.name.Some? ==> r[Name] == payload.name.value)
    ensures (Phone in r <==> payload.phone.Some?) && (payload.phone.Some? ==> r[Phone] == payload.phone.value)
    ensures (Avatar in r <==> payload.avatar.Some?) && (payload.avatar.Some? ==> r[Avatar] == payload.avatar.value)
    ensures (Email in r <==> payload.email.Some?) && (payload.email.Some? ==> r[Email] == payload.email.value)
    ensures r.Keys <= {UpdatedAt, Name, Phone, Avatar, Email}
  {
    var r0 := map[UpdatedAt := now];
    var r1 := if payload.name.Some? then r0[Name := payload.name.value] else r0;
    var r2 := if payload.phone.Some? then r1[Phone := payload.phone.value] else r1;
    var r3 := if payload.avatar.Some? then r2[Avatar := payload.avatar.value] else r2;
    if payload.email.Some? then r3[Email := payload.email.value] else r3
  }

  /** `Object.keys(updates).length > 1`. */
  predicate WritesProfileRow(payload: ProfilePayload, now: string) {
    |UpdateRecord(payload, now)| > 1
  }

  /** `payload.email && payload.email !== user.email`. */
  predicate ChangesAuthEmail(payload: ProfilePayload, currentEmail: string) {
    payload.email.Some? && payload.email.value != "" && payload.email.value != currentEmail
  }

  /** The profile row is written exactly when one of the four fields is defined. */
  lemma WritesProfileRowIff(payload: ProfilePayload, now: string)
    ensures WritesProfileRow(payload, now) <==>
              payload.name.Some? || payload.phone.Some? || payload.avatar.Some? || payload.email.Some?
  {
    var r := UpdateRecord(payload, now);
    var some := payload.name.Some? || payload.phone.Some? || payload.avatar.Some? || payload.email.Some?;
    if some {
      var k := if payload.name.Some? then Name else if payload.phone.Some? then Phone
               else if payload.avatar.Some? then Avatar else Email;
      assert {UpdatedAt, k} <= r.Keys;
      assert |{UpdatedAt, k}| == 2;
      SubsetCardinality({UpdatedAt, k}, r.Keys);
    } else {
      assert r.Keys == {UpdatedAt};
    }
  }

  lemma {:induction false} SubsetCardinality(a: set<Column>, b: set<Column>)
    requires a <= b
    ensures |a| <= |b|
  {
    if a != {} {
      var x :| x in a;
      SubsetCardinality(a - {x}, b - {x});
    }
  }

  /** A deletion step of `deleteAccount`, in the order made. */
  datatype DeleteStep = RemoveAvatar(path: string) | DeleteProfile | DeleteAuthUser | SignOut

  /** The bucket `deleteAccount` removes avatars from. */
  const AvatarBucket := "eventify"

  /** `userImage?.avatar`, when set and non-empty. */
  function AvatarOf(row: Row): (r: Option<string>)
    ensures r.Some? <==> Avatar in row && row[Avatar] != ""
    ensures r.Some? ==> r.value == row[Avatar]
  {
    if Avatar in row && row[Avatar] != "" then Some(row[Avatar]) else None
  }

  /** The accounts: the `users` table, the auth users, and who is signed in. */
  class Accounts {
    var profiles: map<string, Row>
    var authUsers: map<string, AuthUser>
    var session: Option<string>

    constructor (profiles: map<string, Row>, authUsers: map<string, AuthUser>, session: Option<string>)
      ensures this.profiles == profiles && this.authUsers == authUsers && this.session == session
    {
      this.profiles := profiles;
      this.authUsers := authUsers;
      this.session := session;
    }

    /** `supabase.auth.getUser()`: the signed-in auth user, if any. */
    function CurrentUser(): (r: Option<string>)
      reads this
      ensures r.Some? ==> r.value in authUsers && session == r
    {
      if session.Some? && session.value in authUsers then session else None
    }

    /** `updateProfile`: without a signed-in user it fails and writes nothing.
        Otherwise the row is updated with the update record when that holds
        a field, then the auth email is changed when the payload's email is
        set and new; the first failing write ends the call with failure, and
        a row already written stays written. Updating a missing row changes
        nothing and is no error. */
    method UpdateProfile(payload: ProfilePayload, now: string, rowWriteOk: bool, emailWriteOk: bool)
      returns (status: bool)
      modifies this
      ensures session == old(session)
      ensures old(CurrentUser()).None? ==> !status && profiles == old(profiles) && authUsers == old(authUsers)
      ensures old(CurrentUser()).Some? ==>
                var u := old(CurrentUser()).value;
                var rowFails := WritesProfileRow(payload, now) && !rowWriteOk;
                var emailStep := !rowFails && ChangesAuthEmail(payload, old(authUsers)[u].email);
                && profiles == (if WritesProfileRow(payload, now) && rowWriteOk && u in old(profiles)
                                then old(profiles)[u := old(profiles)[u] + UpdateRecord(payload, now)]
                                else old(profiles))
                && authUsers == (if emailStep && emailWriteOk
                                 then old(authUsers)[u := old(authUsers)[u].(email := payload.email.value)]
                                 else old(authUsers))
                && status == (!rowFails && (!emailStep || emailWriteOk))
      ensures status && payload.avatar.Some? && old(CurrentUser()).value in old(profiles) ==>
                var u := old(CurrentUser()).value;
                u in profiles && Avatar in profiles[u] && profiles[u][Avatar] == payload.avatar.value
    {
      WritesProfileRowIff(payload, now);
      var user := CurrentUser();
      if user.None? {
        return false;
      }
      var u := user.value;
      var updates := UpdateRecord(payload, now);
      if |updates| > 1 {
        if !rowWriteOk {
          return false;
        }
        if u in profiles {
          profiles := profiles[u := profiles[u] + updates];
        }
      }
      if payload.email.Some? && payload.email.value != "" && payload.email.value != authUsers[u].email {
        if !emailWriteOk {
          return false;
        }
        authUsers := authUsers[u := authUsers[u].(email := payload.email.value)];
      }
      status := true;
    }

    /** `updatePassword`: without a signed-in user it fails; otherwise the
        auth password is set when the backend accepts it. */
    method UpdatePassword(password: string, ok: bool) returns (status: bool)
      modifies this
      ensures session == old(session) && profiles == old(profiles)
      ensures old(CurrentUser()).None? ==> !status && authUsers == old(authUsers)
      ensures old(CurrentUser()).Some? ==>
                var u := old(CurrentUser()).value;
                && status == ok
                && authUsers == (if ok then old(authUsers)[u := old(authUsers)[u].(password := password)] else old(authUsers))
    {
      var user := CurrentUser();
      if user.None? {
        return false;
      }
      if !ok {
        return false;
      }
      authUsers := authUsers[user.value := authUsers[user.value].(password := password)];
      status := true;
    }

    /** `deleteAccount`: reads the user's avatar (failing when the row cannot
        be read), removes the avatar file when one is set whatever the
        removal's outcome, deletes the row, deletes the auth user and signs
        out, in that order; each failing deletion ends the call with failure
        and what was deleted before stays deleted. */
    method DeleteAccount(storage: UploadFile.Storage, supabaseUrl: string,
                         lookupOk: bool, removeOk: bool, deleteRowOk: bool, deleteAuthOk: bool)
      returns (status: bool, steps: seq<DeleteStep>)
      modifies this, storage
      ensures old(CurrentUser()).None? || !lookupOk || old(CurrentUser()).value !in old(profiles) ==>
                && !status && steps == []
                && profiles == old(profiles) && authUsers == old(authUsers) && session == old(session)
                && storage.objects == old(storage.objects) && storage.calls == old(storage.calls)
      ensures old(CurrentUser()).Some? && lookupOk && old(CurrentUser()).value in old(profiles) ==>
                var u := old(CurrentUser()).value;
                var avatar := AvatarOf(old(profiles)[u]);
                var path := if avatar.Some? then UploadFile.OldPath(avatar.value, supabaseUrl, AvatarBucket) else "";
                var removal := if avatar.Some? then [RemoveAvatar(path)] else [];
                && storage.objects == (if avatar.Some? && removeOk then old(storage.objects) - {path} else old(storage.objects))
                && storage.calls == old(storage.calls) + (if avatar.Some? then [UploadFile.Remove(path)] else [])
                && status == (deleteRowOk && deleteAuthOk)
                && steps == removal + (if !deleteRowOk then [DeleteProfile]
                                       else if !deleteAuthOk then [DeleteProfile, DeleteAuthUser]
                                       else [DeleteProfile, DeleteAuthUser, SignOut])
                && profiles == (if deleteRowOk then old(profiles) - {u} else old(profiles))
                && authUsers == (if deleteRowOk && deleteAuthOk then old(authUsers) - {u} else old(authUsers))
                && session == (if deleteRowOk && deleteAuthOk then None else old(session))
    {
      steps := [];
      var user := CurrentUser();
      if user.None? {
        return false, steps;
      }
      var u := user.value;
      if !lookupOk || u !in profiles {
        return false, steps;
      }
      var avatar := AvatarOf(profiles[u]);
      if avatar.Some? {
        var oldPath := UploadFile.OldPath(avatar.value, supabaseUrl, AvatarBucket);
        storage.Remove(oldPath, removeOk);
        steps := steps + [RemoveAvatar(oldPath)];
      }
      steps := steps + [DeleteProfile];
      if !deleteRowOk {
        return false, steps;
      }
      profiles := profiles - {u};
      steps := steps + [DeleteAuthUser];
      if !deleteAuthOk {
        return false, steps;
      }
      authUsers := authUsers - {u};
      session := None;
      steps := steps + [SignOut];
      status := true;
    }
  }

  /** An avatar uploaded to the bucket `deleteAccount` empties is the very
      file `deleteAccount` removes. */
  lemma {:induction false} DeleteRemovesUploadedAvatar(supabaseUrl: string, filePath: string, row: Row)
    requires Avatar in row && row[Avatar] == UploadFile.PublicUrl(supabaseUrl, AvatarBucket, filePath)
    ensures AvatarOf(row).Some?
    ensures UploadFile.OldPath(AvatarOf(row).value, supabaseUrl, AvatarBucket) == filePath
  {
    UploadFile.OldPathOfPublicUrl(supabaseUrl, AvatarBucket, filePath, "");
  }
}
