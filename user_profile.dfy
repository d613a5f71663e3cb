/**
 * The header user menu of the web app: the initials shown when the user
 * has no avatar, the guard that renders nothing without a user, and the
 * name-saving handler with its blank-name guard. The backend's reply to
 * the save request is an input.
 */
module UserProfile {
  import opened Strings
  import opened Wrappers

  /** The fields of the signed-in user record the menu reads; "" stands for
      an absent field. */
  datatype User = User(id: string, name: string, email: string, avatar: string)

  /** `user.name || user.email || '?'`: never empty. */
  function InitialsSource(name: string, email: string): (r: string)
    ensures r != ""
    ensures name != "" ==> r == name
    ensures name == "" && email != "" ==> r == email
    ensures name == "" && email == "" ==> r == "?"
  {
    if name != "" then name else if email != "" then email else "?"
  }

  /** `getInitials`: with two or more words (split on spaces, empty pieces
      dropped) the upper-cased first letters of the first two words,
      otherwise the first two characters of the source, upper-cased. The
      result has one or two characters and no lower-case ASCII letter. */
  function Initials(name: string, email: string): (r: string)
    ensures 1 <= |r| <= 2
    ensures forall i :: 0 <= i < |r| ==> !IsLowerAscii(r[i])
    ensures var src := InitialsSource(name, email);
            var parts := Words(src);
            if |parts| >= 2 then r == [UpperChar(parts[0][0]), UpperChar(parts[1][0])]
            else r == Upper(if |src| < 2 then src else src[..2])
  {
    var src := InitialsSource(name, email);
    var parts := Words(src);
    if |parts| >= 2 then
      Upper([parts[0][0], parts[1][0]])
    else
      Upper(if |src| < 2 then src else src[..2])
  }

  /** A first and a last name give the capitals of both, however many
      spaces surround or separate them. */
  lemma FullNameInitials(first: string, last: string, gap: nat, lead: nat, email: string)
    requires first != "" && ' ' !in first && last != "" && ' ' !in last
    ensures var name := Spaces(lead) + first + " " + Spaces(gap) + last;
            Initials(name, email) == [UpperChar(first[0]), UpperChar(last[0])]
  {
    var name := Spaces(lead) + first + " " + Spaces(gap) + last;
    WordsOfWord(first);
    WordsOfWord(last);
    SpacesHaveNoWords(lead, first);
    SpacesHaveNoWords(gap, last);
    assert name == (Spaces(lead) + first) + " " + (Spaces(gap) + last);
    WordsAppend(Spaces(lead) + first, Spaces(gap) + last);
  }

  function Spaces(n: nat): (r: string)
    ensures |r| == n && forall i :: 0 <= i < n ==> r[i] == ' '
  {
    seq(n, i => ' ')
  }

  /** Leading spaces add no words. */
  lemma {:induction false} SpacesHaveNoWords(n: nat, s: string)
    ensures Words(Spaces(n) + s) == Words(s)
    decreases n
  {
    if n > 0 {
      assert Spaces(n) + s == "" + " " + (Spaces(n - 1) + s);
      WordsAppend("", Spaces(n - 1) + s);
      assert Words("") == [];
      SpacesHaveNoWords(n - 1, s);
    } else {
      assert Spaces(n) + s == s;
    }
  }

  /** A single word gives its first two characters, upper-cased. */
  lemma SingleWordInitials(word: string, email: string)
    requires word != "" && ' ' !in word
    ensures Initials(word, email) == Upper(if |word| < 2 then word else word[..2])
  {
    WordsOfWord(word);
  }

  /** Without a name the email is used: its first two characters. */
  lemma EmailInitials(email: string)
    requires email != "" && ' ' !in email
    ensures Initials("", email) == Upper(if |email| < 2 then email else email[..2])
  {
    WordsOfWord(email);
  }

  /** The round badge: nothing at all without a user; the stored avatar when
      there is one; otherwise the initials. */
  datatype Badge = AvatarImage(file: string) | InitialsText(text: string)

  function BadgeFor(user: Option<User>): (r: Option<Badge>)
    ensures r.None? <==> user.None?
    ensures user.Some? && user.value.avatar != "" ==> r == Some(AvatarImage(user.value.avatar))
    ensures user.Some? && user.value.avatar == "" ==>
              r.Some? && r.value.InitialsText? && 1 <= |r.value.text| <= 2
  {
    match user
    case None => None
    case Some(u) =>
      if u.avatar != "" then Some(AvatarImage(u.avatar))
      else Some(InitialsText(Initials(u.name, u.email)))
  }

  /** The menu's state around a save. */
  datatype Menu = Menu(user: User, isOpen: bool, isEditing: bool, loading: bool)

  /** What `handleSave` does: the request it sends (if any), the state
      afterwards, and whether a success or failure notice is shown. */
  datatype SaveOutcome = SaveOutcome(menu: Menu, sentName: Option<string>, notice: Option<bool>)

  /** `handleSave` given the backend's reply (`None` when the update failed):
      a name that trims to empty does nothing; otherwise the untrimmed name
      is sent; success replaces the user and closes the menu and the editor;
      failure keeps them; either way loading ends false. */
  function HandleSave(m: Menu, newName: string, reply: Option<User>): (r: SaveOutcome)
    ensures IsBlank(newName) ==> r.menu == m && r.sentName.None? && r.notice.None?
    ensures !IsBlank(newName) ==> r.sentName == Some(newName) && !r.menu.loading
    ensures !IsBlank(newName) && reply.Some? ==>
              r.menu.user == reply.value && !r.menu.isOpen && !r.menu.isEditing && r.notice == Some(true)
    ensures !IsBlank(newName) && reply.None? ==>
              r.menu.user == m.user && r.menu.isOpen == m.isOpen && r.menu.isEditing == m.isEditing
              && r.notice == Some(false)
  {
    if Trim(newName) == "" then SaveOutcome(m, None, None)
    else
      match reply
      case Some(updated) => SaveOutcome(Menu(updated, false, false, false), Some(newName), Some(true))
      case None => SaveOutcome(m.(loading := false), Some(newName), Some(false))
  }
}
