/**
 * The profile page of the web app: the load-time redirect, the guest
 * badge, the avatar shown (preview, stored image or a fallback letter),
 * which sign-in providers count as linked and how their names are shown,
 * the save form (name, plus the avatar only when a file was picked), and
 * the unlink guard. Backend replies are inputs; a picked file and its
 * preview URL are named by strings.
 */
module Profile {
  import opened Strings
  import opened Wrappers
  import opened Accounts
  import opened UserProfile

  /** `user?.email?.startsWith('guest_')`: false without a user or email. */
  function IsGuest(user: Option<User>): (r: bool)
    ensures r <==> user.Some? && IsGuestEmail(user.value.email)
    ensures r ==> user.value.email != ""
  {
    user.Some? && IsGuestEmail(user.value.email)
  }

  /** `(name?.[0] || email?.[0] || '?').toUpperCase()`: the first character
      of the name, else of the email, else "?", upper-cased. */
  function FallbackLetter(name: string, email: string): (r: string)
    ensures |r| == 1 && !IsLowerAscii(r[0])
    ensures name != "" ==> r == [UpperChar(name[0])]
    ensures name == "" && email != "" ==> r == [UpperChar(email[0])]
    ensures name == "" && email == "" ==> r == "?"
  {
    Upper(if name != "" then [name[0]] else if email != "" then [email[0]] else "?")
  }

  /** What the round avatar shows. */
  datatype AvatarView = PreviewImage(url: string) | StoredImage(file: string) | Letter(text: string)

  /** A picked file's preview wins over the stored avatar, which wins over
      the fallback letter. */
  function AvatarFor(previewUrl: Option<string>, user: User): (v: AvatarView)
    ensures previewUrl.Some? && previewUrl.value != "" ==> v == PreviewImage(previewUrl.value)
    ensures (previewUrl.None? || previewUrl.value == "") && user.avatar != "" ==> v == StoredImage(user.avatar)
    ensures (previewUrl.None? || previewUrl.value == "") && user.avatar == "" ==>
              v == Letter(FallbackLetter(user.name, user.email))
  {
    if previewUrl.Some? && previewUrl.value != "" then PreviewImage(previewUrl.value)
    else if user.avatar != "" then StoredImage(user.avatar)
    else Letter(FallbackLetter(user.name, user.email))
  }

  /** The letter agrees with the header menu's initials on their first
      character whenever the name is a single word. */
  lemma LetterMatchesInitials(word: string, email: string)
    requires word != "" && ' ' !in word
    ensures FallbackLetter(word, email) == Initials(word, email)[..1]
  {
    SingleWordInitials(word, email);
  }

  /** An external sign-in linked to the account. */
  datatype LinkedAuth = LinkedAuth(id: string, provider: string)

  /** `linkedProviders.some(lp => lp.provider === name)`. */
  predicate IsLinked(linked: seq<LinkedAuth>, name: string) {
    exists i :: 0 <= i < |linked| && linked[i].provider == name
  }

  /** `linkedProviders.find(p => p.provider === name)`: the first entry for
      the provider, present exactly when the provider counts as linked. */
  function FindLink(linked: seq<LinkedAuth>, name: string): (r: Option<LinkedAuth>)
    ensures r.Some? <==> IsLinked(linked, name)
    ensures r.Some? ==> r.value.provider == name && r.value in linked
    decreases |linked|
  {
    if linked == [] then None
    else if linked[0].provider == name then Some(linked[0])
    else
      var rest := FindLink(linked[1..], name);
      assert IsLinked(linked, name) ==> IsLinked(linked[1..], name) by {
        if IsLinked(linked, name) {
          var i :| 0 <= i < |linked| && linked[i].provider == name;
          assert i > 0 && linked[1..][i - 1] == linked[i];
        }
      }
      assert IsLinked(linked[1..], name) ==> IsLinked(linked, name) by {
        if IsLinked(linked[1..], name) {
          var i :| 0 <= i < |linked[1..]| && linked[1..][i].provider == name;
          assert linked[i + 1] == linked[1..][i];
        }
      }
      rest
  }

  /** `name.charAt(0).toUpperCase() + name.slice(1)`: the first character
      upper-cased, the rest kept. */
  function ProviderLabel(name: string): (r: string)
    ensures |r| == |name|
    ensures name != "" ==> r[0] == UpperChar(name[0]) && r[1..] == name[1..]
  {
    if name == "" then "" else Upper(name[..1]) + name[1..]
  }

  /** Labelling a label changes nothing, and a lower-case first letter is
      the only thing labelling changes. */
  lemma ProviderLabelIdempotent(name: string)
    ensures ProviderLabel(ProviderLabel(name)) == ProviderLabel(name)
    ensures name != "" && !IsLowerAscii(name[0]) ==> ProviderLabel(name) == name
  {
    if name != "" {
      var r := ProviderLabel(name);
      LabelKeepsCapitalised(r);
      if !IsLowerAscii(name[0]) {
        LabelKeepsCapitalised(name);
      }
    }
  }

  /** A name that does not start with a lower-case letter is its own label. */
  lemma LabelKeepsCapitalised(name: string)
    requires name != "" && !IsLowerAscii(name[0])
    ensures ProviderLabel(name) == name
  {
    assert name == [name[0]] + name[1..];
  }

  /** The multipart fields of the save request. */
  datatype FormField = NameField(name: string) | AvatarField(file: string)

  /** The save request: the name as typed, then the avatar only when a file
      was picked. */
  method BuildSavePayload(newName: string, avatarFile: Option<string>) returns (fields: seq<FormField>)
    ensures |fields| >= 1 && fields[0] == NameField(newName)
    ensures avatarFile.None? ==> fields == [NameField(newName)]
    ensures avatarFile.Some? ==> fields == [NameField(newName), AvatarField(avatarFile.value)]
    ensures forall i :: 0 <= i < |fields| && fields[i].AvatarField? ==> avatarFile == Some(fields[i].file)
  {
    fields := [];
    fields := fields + [NameField(newName)];
    if avatarFile.Some? {
      fields := fields + [AvatarField(avatarFile.value)];
    }
  }

  class ProfilePage {
    var user: Option<User>
    var loading: bool
    var newName: string
    var avatarFile: Option<string>
    var previewUrl: Option<string>
    var saving: bool
    var linkedProviders: seq<LinkedAuth>
    var linking: bool

    constructor ()
      ensures user.None? && loading && newName == "" && avatarFile.None? && previewUrl.None?
      ensures !saving && linkedProviders == [] && !linking
    {
      user, loading, newName := None, true, "";
      avatarFile, previewUrl := None, None;
      saving, linkedProviders, linking := false, [], false;
    }

    /** The load effect: a visitor who is not signed in is sent home and no
        state changes; without a user record nothing happens; otherwise the
        user is shown and the name field starts from the stored name. */
    method Load(authenticated: bool, current: Option<User>) returns (redirectHome: bool)
      modifies this`user, this`newName, this`loading
      ensures redirectHome <==> !authenticated
      ensures !authenticated || current.None? ==>
                user == old(user) && newName == old(newName) && loading == old(loading)
      ensures authenticated && current.Some? ==>
                user == current && newName == current.value.name && !loading
    {
      if !authenticated {
        return true;
      }
      redirectHome := false;
      if current.None? {
        return;
      }
      user := current;
      newName := current.value.name;
      loading := false;
    }

    /** The linked-accounts list arrived. */
    method ReceiveLinked(auths: seq<LinkedAuth>)
      modifies this`linkedProviders
      ensures linkedProviders == auths
    {
      linkedProviders := auths;
    }

    /** `handleFileChange`: picking a file selects it and shows its preview;
        cancelling the picker changes nothing. */
    method FileChange(file: Option<string>, objectUrl: string)
      modifies this`avatarFile, this`previewUrl
      ensures file.Some? ==> avatarFile == file && previewUrl == Some(objectUrl)
      ensures file.None? ==> avatarFile == old(avatarFile) && previewUrl == old(previewUrl)
    {
      if file.Some? {
        avatarFile := file;
        previewUrl := Some(objectUrl);
      }
    }

    /** The start of `handleSaveProfile`: nothing without a user; otherwise
        saving is shown and the request is returned. */
    method BeginSave() returns (request: Option<seq<FormField>>)
      modifies this`saving
      ensures user.None? ==> request.None? && saving == old(saving)
      ensures user.Some? ==> saving && request.Some?
      ensures user.Some? && avatarFile.None? ==> request == Some([NameField(newName)])
      ensures user.Some? && avatarFile.Some? ==>
                request == Some([NameField(newName), AvatarField(avatarFile.value)])
    {
      if user.None? {
        return None;
      }
      saving := true;
      var fields := BuildSavePayload(newName, avatarFile);
      request := Some(fields);
    }

    /** The end of `handleSaveProfile`: a success shows the updated record
        and clears the picked file and its preview; a failure keeps them.
        Saving ends either way. */
    method CompleteSave(reply: Option<User>)
      modifies this`user, this`avatarFile, this`previewUrl, this`saving
      ensures !saving
      ensures reply.Some? ==> user == reply && avatarFile.None? && previewUrl.None?
      ensures reply.None? ==> user == old(user) && avatarFile == old(avatarFile) && previewUrl == old(previewUrl)
    {
      if reply.Some? {
        user := reply;
        avatarFile := None;
        previewUrl := None;
      }
      saving := false;
    }

    /** `handleUnlink`'s guard: the unlink request is sent only for a
        provider that is linked and only after the visitor confirmed. */
    method Unlink(provider: string, confirmed: bool) returns (send: bool)
      ensures send <==> IsLinked(linkedProviders, provider) && confirmed
    {
      var link := FindLink(linkedProviders, provider);
      if link.None? {
        return false;
      }
      if !confirmed {
        return false;
      }
      send := true;
    }

    method BeginLink()
      modifies this`linking
      ensures linking
    {
      linking := true;
    }

    /** The end of `handleLinkAccount`. `auths` is the refreshed linked list
        (`None` when linking or listing failed) and `refreshed` the reloaded
        user record (`None` when `getOne` failed). The list is replaced as
        soon as it arrives, so a failing `getOne` leaves the new list with
        the old user; the user is replaced only after a list. Linking ends
        either way. */
    method CompleteLink(auths: Option<seq<LinkedAuth>>, refreshed: Option<User>)
      modifies this`linkedProviders, this`user, this`linking
      ensures !linking
      ensures auths.Some? ==> linkedProviders == auths.value
      ensures auths.None? ==> linkedProviders == old(linkedProviders)
      ensures auths.Some? && refreshed.Some? ==> user == refreshed
      ensures auths.None? || refreshed.None? ==> user == old(user)
    {
      if auths.Some? {
        linkedProviders := auths.value;
        if refreshed.Some? {
          user := refreshed;
        }
      }
      linking := false;
    }
  }
}
