/**
 * The decision rules of the photo card in the guest app: normalising the
 * loosely typed `likes` field, the liked flag and like count, the like
 * toggle sent to the backend, ownership and the permissions that follow
 * from it, the owner label, the flash-highlight condition, and the card's
 * own UI state (editing, caption draft, controls, delete confirmation).
 *
 * A "current user id" is a string in which "" stands for a missing id: in
 * every expression the card uses, `undefined` and "" behave alike.
 */
module PhotoCard {
  import opened Strings
  import opened Wrappers

  /** What the backend may return in a photo's `likes` relation field. */
  datatype RawLikes =
    | IdList(ids: seq<string>)   // an array of user ids
    | SingleId(id: string)       // a single id as a bare string
    | Missing                    // null, undefined, or any other value

  /** The ids a raw `likes` value mentions, as a set. */
  function MentionedIds(raw: RawLikes): set<string> {
    match raw
    case IdList(ids) => set i | 0 <= i < |ids| :: ids[i]
    case SingleId(id) => if IsBlank(id) then {} else {id}
    case Missing => {}
  }

  /** The `likes` list the card works with: an array is de-duplicated in
      first-occurrence order, a non-blank string becomes a one-element list,
      anything else the empty list. The list never holds an id twice. */
  function NormaliseLikes(raw: RawLikes): (likes: seq<string>)
    ensures NoDups(likes)
    ensures forall x :: x in likes <==> x in MentionedIds(raw)
    ensures raw.IdList? && NoDups(raw.ids) ==> likes == raw.ids
    ensures raw.SingleId? ==> likes == if IsBlank(raw.id) then [] else [raw.id]
    ensures raw.Missing? ==> likes == []
  {
    var likes :=
      match raw
      case IdList(ids) => ids
      case SingleId(id) => if IsBlank(id) then [] else [id]
      case Missing => [];
    if raw.IdList? && NoDups(raw.ids) then DedupOfDistinct(raw.ids); Dedup(likes)
    else Dedup(likes)
  }

  /** `isLiked`: false without a current user, membership otherwise. */
  function IsLiked(likes: seq<string>, currentUserId: string): bool {
    currentUserId != "" && currentUserId in likes
  }

  /** `likeCount`. */
  function LikeCount(likes: seq<string>): nat {
    |likes|
  }

  /** What the card shows: no user means not liked, otherwise liked is
      membership; and the count is the number of DISTINCT ids the backend
      sent, however many times it repeated them. */
  lemma LikeView(raw: RawLikes, currentUserId: string)
    ensures currentUserId == "" ==> !IsLiked(NormaliseLikes(raw), currentUserId)
    ensures currentUserId != "" ==>
              (IsLiked(NormaliseLikes(raw), currentUserId) <==> currentUserId in MentionedIds(raw))
    ensures LikeCount(NormaliseLikes(raw)) == |MentionedIds(raw)|
  {
    var likes := NormaliseLikes(raw);
    DistinctCard(likes);
    SameElements(likes, MentionedIds(raw));
  }

  /** A list and a set with the same members: the set is the list's set of
      elements. */
  lemma SameElements(s: seq<string>, m: set<string>)
    requires forall x :: x in s <==> x in m
    ensures (set i | 0 <= i < |s| :: s[i]) == m
  {
    var elements := set i | 0 <= i < |s| :: s[i];
    forall x | x in m ensures x in elements {
      var i :| 0 <= i < |s| && s[i] == x;
    }
  }

  /** A list without duplicates has as many elements as its set of elements. */
  lemma {:induction false} DistinctCard(s: seq<string>)
    requires NoDups(s)
    ensures |set i | 0 <= i < |s| :: s[i]| == |s|
    decreases |s|
  {
    if s != [] {
      var init := s[..|s| - 1];
      assert NoDups(init);
      DistinctCard(init);
      var a := set i | 0 <= i < |init| :: init[i];
      var b := set i | 0 <= i < |s| :: s[i];
      assert s[|s| - 1] !in a;
      assert b == a + {s[|s| - 1]};
    }
  }

  /** The `likes` list `handleLike` sends: nothing without a current user;
      otherwise the user is filtered out when the photo is liked, or appended
      at the end when it is not. On the card's (duplicate-free) list this
      flips the user's membership, keeps every other id and its order, and
      changes the count by exactly one. */
  function ToggleLike(likes: seq<string>, currentUserId: string): (r: Option<seq<string>>)
    ensures r.None? <==> currentUserId == ""
    ensures r.Some? ==> (currentUserId in r.value <==> !IsLiked(likes, currentUserId))
    ensures r.Some? ==> forall x :: x != currentUserId ==> (x in r.value <==> x in likes)
    ensures r.Some? && !IsLiked(likes, currentUserId) ==> r.value == likes + [currentUserId]
    ensures r.Some? && NoDups(likes) ==> NoDups(r.value)
    ensures r.Some? && NoDups(likes) ==>
              |r.value| == if IsLiked(likes, currentUserId) then |likes| - 1 else |likes| + 1
    ensures r.Some? && NoDups(likes) && IsLiked(likes, currentUserId) ==>
              forall k :: 0 <= k < |likes| && likes[k] == currentUserId ==>
                r.value == likes[..k] + likes[k + 1..]
  {
    if currentUserId == "" then None
    else if IsLiked(likes, currentUserId) then
      var k :| 0 <= k < |likes| && likes[k] == currentUserId;
      if NoDups(likes) then
        RemoveAllAt(likes, currentUserId, k);
        RemoveAllKeepsDistinct(likes, currentUserId);
        Some(RemoveAll(likes, currentUserId))
      else
        Some(RemoveAll(likes, currentUserId))
    else
      Some(likes + [currentUserId])
  }

  /** Liking and then unliking gives back the list the backend had. */
  lemma LikeThenUnlike(likes: seq<string>, currentUserId: string)
    requires NoDups(likes) && currentUserId != "" && currentUserId !in likes
    ensures ToggleLike(likes, currentUserId).Some?
    ensures ToggleLike(ToggleLike(likes, currentUserId).value, currentUserId) == Some(likes)
  {
    var liked := likes + [currentUserId];
    assert ToggleLike(likes, currentUserId) == Some(liked);
    assert NoDups(liked) && IsLiked(liked, currentUserId);
    assert liked[|likes|] == currentUserId;
    assert liked[..|likes|] == likes && liked[|likes| + 1..] == [];
    RemoveAllAt(liked, currentUserId, |likes|);
    assert ToggleLike(liked, currentUserId) == Some(RemoveAll(liked, currentUserId));
    assert RemoveAll(liked, currentUserId) == likes + [];
    assert likes + [] == likes;
  }

  /** `isOwner`: a non-empty current user id equal to the photo's owner. */
  function IsOwner(currentUserId: string, photoOwner: string): bool {
    currentUserId != "" && currentUserId == photoOwner
  }

  datatype Permissions = Permissions(canEdit: bool, canDelete: bool)

  /** `canEdit` and `canDelete` both follow ownership. */
  function PermissionsFor(currentUserId: string, photoOwner: string): (p: Permissions)
    ensures p.canEdit == p.canDelete
    ensures p.canEdit <==> currentUserId != "" && currentUserId == photoOwner
  {
    var isOwner := IsOwner(currentUserId, photoOwner);
    Permissions(isOwner, isOwner)
  }

  /** Nobody without an id may edit, and at most one user may edit a given
      photo: the one who owns it. */
  lemma EditRightsUnique(u1: string, u2: string, photoOwner: string)
    ensures !PermissionsFor("", photoOwner).canEdit
    ensures PermissionsFor(u1, photoOwner).canEdit && PermissionsFor(u2, photoOwner).canEdit ==> u1 == u2
  {
  }

  /** `ownerName`: "You" for the owner; otherwise the expanded owner's name,
      else that user's email, else "Guest". The label is never empty. */
  function OwnerName(currentUserId: string, photoOwner: string,
                     expandedName: string, expandedEmail: string): (r: string)
    ensures r != ""
    ensures IsOwner(currentUserId, photoOwner) ==> r == "You"
    ensures !IsOwner(currentUserId, photoOwner) ==>
              r == (if expandedName != "" then expandedName
                    else if expandedEmail != "" then expandedEmail
                    else "Guest")
  {
    if IsOwner(currentUserId, photoOwner) then "You"
    else if expandedName != "" then expandedName
    else if expandedEmail != "" then expandedEmail
    else "Guest"
  }

  /** The flash-highlight effect fires only for a photo whose `updated`
      stamp is present and differs from `created`. */
  function ShouldFlash(updated: string, created: string): (r: bool)
    ensures r ==> updated != "" && updated != created
    ensures updated != "" && updated != created ==> r
  {
    updated != "" && updated != created
  }

  /** A freshly created record (updated == created) never flashes. */
  lemma FreshPhotoDoesNotFlash(stamp: string)
    ensures !ShouldFlash(stamp, stamp)
  {
  }

  /** The card's own state: whether the caption is being edited, the caption
      draft, whether the controls are pinned open by a tap, whether the delete
      confirmation is shown, and the highlight flag. */
  class Card {
    var isEditing: bool
    var caption: string
    var showControls: bool
    var isDeleting: bool
    var highlight: bool

    /** Mounting: caption draft from the photo (`photo.caption || ''`). */
    constructor (photoCaption: string)
      ensures !isEditing && caption == photoCaption && !showControls
      ensures !isDeleting && !highlight
    {
      isEditing := false;
      caption := photoCaption;
      showControls := false;
      isDeleting := false;
      highlight := false;
    }

    /** A tap toggles the controls; opening them also flashes the card. */
    method Tap()
      modifies this
      ensures showControls == !old(showControls)
      ensures highlight == (old(highlight) || !old(showControls))
      ensures isEditing == old(isEditing) && caption == old(caption) && isDeleting == old(isDeleting)
    {
      var wasShown := showControls;
      showControls := !showControls;
      if !wasShown {
        highlight := true;
      }
    }

    /** The flash effect, run on mount and whenever the photo's `updated`
        stamp, likes or caption change: an edited photo turns the highlight
        on, anything else leaves it as it was. */
    method PhotoChanged(updated: string, created: string)
      modifies this`highlight
      ensures highlight == (old(highlight) || ShouldFlash(updated, created))
      ensures ShouldFlash(updated, created) ==> highlight
      ensures updated == created ==> highlight == old(highlight)
    {
      if updated != "" && updated != created {
        highlight := true;
      }
      FreshPhotoDoesNotFlash(created);
    }

    /** The timer that ends a flash. */
    method EndHighlight()
      modifies this`highlight
      ensures !highlight
    {
      highlight := false;
    }

    /** The edit button exists only for an owner while not editing; pressing
        it starts editing with the draft reset to the photo's caption. */
    method BeginEdit(currentUserId: string, photoOwner: string, photoCaption: string)
      modifies this`isEditing, this`caption
      ensures PermissionsFor(currentUserId, photoOwner).canEdit && !old(isEditing) ==>
                isEditing && caption == photoCaption
      ensures !(PermissionsFor(currentUserId, photoOwner).canEdit && !old(isEditing)) ==>
                isEditing == old(isEditing) && caption == old(caption)
    {
      if PermissionsFor(currentUserId, photoOwner).canEdit && !isEditing {
        isEditing := true;
        caption := photoCaption;
      }
    }

    /** Typing into the caption field replaces the draft. */
    method TypeCaption(text: string)
      modifies this`caption
      ensures caption == text
    {
      caption := text;
    }

    method CancelEdit()
      modifies this`isEditing
      ensures !isEditing
    {
      isEditing := false;
    }

    /** `handleUpdateCaption`: the draft is what is sent; editing ends only
        when the backend accepted it. */
    method SaveCaption(accepted: bool) returns (sent: string)
      modifies this`isEditing
      ensures sent == caption
      ensures isEditing == (old(isEditing) && !accepted)
    {
      sent := caption;
      if accepted {
        isEditing := false;
      }
    }

    /** The delete button exists only for an owner while not editing; it
        opens the confirmation. */
    method RequestDelete(currentUserId: string, photoOwner: string)
      modifies this`isDeleting
      ensures isDeleting == (old(isDeleting) ||
                             (PermissionsFor(currentUserId, photoOwner).canDelete && !isEditing))
    {
      if PermissionsFor(currentUserId, photoOwner).canDelete && !isEditing {
        isDeleting := true;
      }
    }

    /** `confirmDelete`: the confirmation closes whether or not the backend
        deleted the photo; a failure is reported. */
    method ConfirmDelete(deleted: bool) returns (reportError: bool)
      modifies this`isDeleting
      ensures !isDeleting
      ensures reportError == !deleted
    {
      isDeleting := false;
      reportError := !deleted;
    }

    method CancelDelete()
      modifies this`isDeleting
      ensures !isDeleting
    {
      isDeleting := false;
    }
  }
}
