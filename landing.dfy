/**
 * The landing page of the web app: the typewriter headline, the rotating
 * cover image, the "recently joined" history (local ids merged with the
 * account's ids), the transfer of a guest's joined events to the account
 * on sign-in, the "my events" query, joining by code, creating an event,
 * and signing out.
 *
 * Timers, local storage, the backend and navigation are outside the model:
 * their results are parameters and the requests the page would send are
 * results.
 */
module Landing {
  import opened Strings
  import opened Wrappers
  import opened Accounts
  import opened Arithmetic

  // ---------------------------------------------------------------------
  // Typewriter headline
  // ---------------------------------------------------------------------

  /** The words the headline cycles through before shuffling. */
  const EventWords: seq<string> := [
    "wedding", "birthday party", "family reunion", "holiday party", "baby shower",
    "graduation", "conference", "company retreat", "music festival", "road trip"
  ]

  // ---------------------------------------------------------------------
  // The shuffle of the headline words
  // ---------------------------------------------------------------------

  /** The choices `Math.floor(Math.random() * (i + 1))` of a Fisher-Yates
      shuffle of `n` elements: for each index `i`, a partner in `[0, i]`. */
  predicate ValidPicks(picks: seq<nat>, n: nat) {
    |picks| == n && forall i :: 0 <= i < n ==> picks[i] <= i
  }

  /** `s` with the elements at `i` and `j` exchanged. */
  function Swap(s: seq<string>, i: nat, j: nat): (r: seq<string>)
    requires i < |s| && j < |s|
    ensures |r| == |s|
  {
    s[i := s[j]][j := s[i]]
  }

  lemma SwapPermutes(s: seq<string>, i: nat, j: nat)
    requires i < |s| && j < |s|
    ensures multiset(Swap(s, i, j)) == multiset(s)
  {
  }

  /** The swaps of the shuffle still to do, from index `i` down to 1. */
  function ShuffleFrom(s: seq<string>, picks: seq<nat>, i: nat): (r: seq<string>)
    requires i < |s| && ValidPicks(picks, |s|)
    ensures |r| == |s|
    decreases i
  {
    if i == 0 then s else ShuffleFrom(Swap(s, i, picks[i]), picks, i - 1)
  }

  /** The whole shuffle: every swap from the last index down to 1. */
  function Shuffle(s: seq<string>, picks: seq<nat>): (r: seq<string>)
    requires ValidPicks(picks, |s|)
    ensures |r| == |s|
  {
    if s == [] then s else ShuffleFrom(s, picks, |s| - 1)
  }

  /** Whatever the random choices, the shuffle only reorders: the result is
      a permutation of its input. */
  lemma {:induction false} ShuffleFromPermutes(s: seq<string>, picks: seq<nat>, i: nat)
    requires i < |s| && ValidPicks(picks, |s|)
    ensures multiset(ShuffleFrom(s, picks, i)) == multiset(s)
    decreases i
  {
    if i > 0 {
      ShuffleFromPermutes(Swap(s, i, picks[i]), picks, i - 1);
      SwapPermutes(s, i, picks[i]);
    }
  }

  lemma ShufflePermutes(s: seq<string>, picks: seq<nat>)
    requires ValidPicks(picks, |s|)
    ensures multiset(Shuffle(s, picks)) == multiset(s)
  {
    if s != [] {
      ShuffleFromPermutes(s, picks, |s| - 1);
    }
  }

  /** The word initialiser's array literal: a fresh array holding the
      sequence. */
  method ToArray(s: seq<string>) returns (a: array<string>)
    ensures fresh(a) && a[..] == s
  {
    a := new string[|s|](k requires 0 <= k < |s| => s[k]);
  }

  /** The in-place Fisher-Yates loop of the page's word initialiser, with
      the random choices passed in. */
  method FisherYates(a: array<string>, picks: seq<nat>)
    requires ValidPicks(picks, a.Length)
    modifies a
    ensures a[..] == Shuffle(old(a[..]), picks)
  {
    if a.Length == 0 {
      return;
    }
    var i: nat := a.Length - 1;
    while i > 0
      invariant i < a.Length
      invariant ShuffleFrom(a[..], picks, i) == Shuffle(old(a[..]), picks)
      decreases i
    {
      var j := picks[i];
      ghost var before := a[..];
      a[i], a[j] := a[j], a[i];
      assert a[..] == Swap(before, i, j);
      i := i - 1;
    }
  }

  datatype Typewriter = Typewriter(typedText: string, isDeleting: bool, wordIndex: nat)

  /** `words[wordIndex % words.length]`: the index wraps around. */
  function CurrentWord(words: seq<string>, wordIndex: nat): (w: string)
    requires |words| > 0
    ensures w in words
    ensures wordIndex < |words| ==> w == words[wordIndex]
  {
    words[wordIndex % |words|]
  }

  /** After a full pass over the list the headline shows the same word again. */
  lemma CurrentWordPeriodic(words: seq<string>, wordIndex: nat)
    requires |words| > 0
    ensures CurrentWord(words, wordIndex + |words|) == CurrentWord(words, wordIndex)
  {
    ModShift(wordIndex, |words|);
  }

  /** `s.substring(0, n)`: the end is clamped into `[0, |s|]`. */
  function Prefix(s: string, n: int): (r: string)
    ensures 0 <= n <= |s| ==> r == s[..n]
    ensures n < 0 ==> r == ""
    ensures n > |s| ==> r == s
  {
    if n < 0 then "" else if n > |s| then s else s[..n]
  }

  predicate IsPrefixOf(p: string, s: string) {
    |p| <= |s| && s[..|p|] == p
  }

  /** The headline's invariant: what is shown is a prefix of the current word. */
  predicate TypewriterOk(words: seq<string>, t: Typewriter)
    requires |words| > 0
  {
    IsPrefixOf(t.typedText, CurrentWord(words, t.wordIndex))
  }

  /** One firing of the headline timer. A fully typed word switches to
      deleting; a fully deleted one switches to typing and advances the word
      index by one; otherwise the text becomes the prefix of the current
      word one character longer (typing) or shorter (deleting). */
  function TypewriterStep(words: seq<string>, t: Typewriter): (n: Typewriter)
    requires |words| > 0
    ensures TypewriterOk(words, t) ==> TypewriterOk(words, n)
    ensures !t.isDeleting && t.typedText == CurrentWord(words, t.wordIndex) ==>
              n == t.(isDeleting := true)
    ensures t.isDeleting && t.typedText == "" ==>
              n == Typewriter("", false, t.wordIndex + 1)
    ensures TypewriterOk(words, t)
            && !(!t.isDeleting && t.typedText == CurrentWord(words, t.wordIndex))
            && !(t.isDeleting && t.typedText == "") ==>
              n.isDeleting == t.isDeleting && n.wordIndex == t.wordIndex
              && |n.typedText| == (if t.isDeleting then |t.typedText| - 1 else |t.typedText| + 1)
  {
    var word := CurrentWord(words, t.wordIndex);
    if !t.isDeleting && t.typedText == word then
      t.(isDeleting := true)
    else if t.isDeleting && t.typedText == "" then
      t.(isDeleting := false, wordIndex := t.wordIndex + 1)
    else
      t.(typedText := Prefix(word, |t.typedText| + (if t.isDeleting then -1 else 1)))
  }

  /** `n` firings of the headline timer. */
  function TypewriterRun(words: seq<string>, t: Typewriter, n: nat): Typewriter
    requires |words| > 0
    decreases n
  {
    if n == 0 then t else TypewriterRun(words, TypewriterStep(words, t), n - 1)
  }

  lemma {:induction false} RunSplit(words: seq<string>, t: Typewriter, a: nat, b: nat)
    requires |words| > 0
    ensures TypewriterRun(words, t, a + b) == TypewriterRun(words, TypewriterRun(words, t, a), b)
    decreases a
  {
    if a > 0 {
      RunSplit(words, TypewriterStep(words, t), a - 1, b);
    }
  }

  lemma {:induction false} TypeUp(words: seq<string>, i: nat, k: nat)
    requires |words| > 0 && k <= |CurrentWord(words, i)|
    ensures var w := CurrentWord(words, i);
            TypewriterRun(words, Typewriter(w[..k], false, i), |w| - k) == Typewriter(w, false, i)
    decreases |CurrentWord(words, i)| - k
  {
    var w := CurrentWord(words, i);
    if k < |w| {
      assert w[..k] != w;
      assert TypewriterStep(words, Typewriter(w[..k], false, i)) == Typewriter(w[..k + 1], false, i);
      TypeUp(words, i, k + 1);
    } else {
      assert w[..k] == w;
    }
  }

  lemma {:induction false} DeleteDown(words: seq<string>, i: nat, k: nat)
    requires |words| > 0 && k <= |CurrentWord(words, i)|
    ensures var w := CurrentWord(words, i);
            TypewriterRun(words, Typewriter(w[..k], true, i), k) == Typewriter("", true, i)
    decreases k
  {
    var w := CurrentWord(words, i);
    if k > 0 {
      assert TypewriterStep(words, Typewriter(w[..k], true, i)) == Typewriter(w[..k - 1], true, i);
      DeleteDown(words, i, k - 1);
    }
  }

  /** One full cycle: starting from an empty headline, the current word is
      typed out, deleted again, and after exactly `2 * |word| + 2` firings
      the headline is empty and shows the next word's index. */
  lemma TypewriterCycle(words: seq<string>, i: nat)
    requires |words| > 0
    ensures var w := CurrentWord(words, i);
            TypewriterRun(words, Typewriter("", false, i), 2 * |w| + 2) == Typewriter("", false, i + 1)
  {
    var w := CurrentWord(words, i);
    TypeUp(words, i, 0);
    assert w[..0] == "";
    DeleteDown(words, i, |w|);
    assert w[..|w|] == w;
    RunSplit(words, Typewriter("", false, i), |w|, 1);
    RunSplit(words, Typewriter("", false, i), |w| + 1, |w|);
    RunSplit(words, Typewriter("", false, i), 2 * |w| + 1, 1);
  }

  // ---------------------------------------------------------------------
  // Cover rotation
  // ---------------------------------------------------------------------

  const Covers: seq<string> := [
    "/covers/pexels-beige-media-2148596893-32538883.jpg",
    "/covers/pexels-jibarofoto-3689547.jpg",
    "/covers/al-elmes-ULHxWq8reao-unsplash.jpg",
    "/covers/noiseporn-JNuKyKXLh8U-unsplash.jpg"
  ]

  /** `(prev + 1) % COVERS.length`: always a valid cover index. */
  function NextCover(prev: nat): (r: nat)
    ensures r < |Covers|
    ensures prev + 1 < |Covers| ==> r == prev + 1
    ensures prev == |Covers| - 1 ==> r == 0
  {
    (prev + 1) % |Covers|
  }

  /** Every cover is shown in turn: four rotations come back to the start. */
  lemma CoversCycle(i: nat)
    requires i < |Covers|
    ensures NextCover(NextCover(NextCover(NextCover(i)))) == i
  {
  }

  // ---------------------------------------------------------------------
  // Joined-event history
  // ---------------------------------------------------------------------

  /** `ids.map(id => 'id="' + id + '"')`. */
  function HistoryClauses(ids: seq<string>): (r: seq<string>)
    ensures |r| == |ids| && forall k :: 0 <= k < |ids| ==> r[k] == "id=\"" + ids[k] + "\""
  {
    seq(|ids|, k requires 0 <= k < |ids| => "id=\"" + ids[k] + "\"")
  }

  datatype HistoryAction = ClearHistory | FetchHistory(ids: seq<string>, filter: string)

  /** `fetchHistory`: the local ids and the account's ids merged without
      duplicates, local ones first; nothing to fetch clears the history,
      otherwise the events are fetched with one `id="…"` clause per id,
      joined by `||`. */
  function HistoryPlan(localIds: seq<string>, serverIds: seq<string>): (a: HistoryAction)
    ensures a.ClearHistory? <==> localIds == [] && serverIds == []
    ensures a.FetchHistory? ==>
              NoDups(a.ids)
              && (forall x :: x in a.ids <==> x in localIds || x in serverIds)
              && a.filter == JoinWith(HistoryClauses(a.ids), "||")
  {
    var all := Dedup(localIds + serverIds);
    DedupMembers(localIds + serverIds);
    if all == [] then
      ClearHistory
    else FetchHistory(all, JoinWith(HistoryClauses(all), "||"))
  }

  /** The merged history lists the local ids first, in their own
      first-occurrence order. */
  lemma HistoryLocalFirst(localIds: seq<string>, serverIds: seq<string>)
    requires localIds != []
    ensures HistoryPlan(localIds, serverIds).FetchHistory?
    ensures var ids := HistoryPlan(localIds, serverIds).ids;
            |Dedup(localIds)| <= |ids| && ids[..|Dedup(localIds)|] == Dedup(localIds)
  {
    DedupPrefix(localIds, serverIds);
  }

  // ---------------------------------------------------------------------
  // Guest data transfer on sign-in
  // ---------------------------------------------------------------------

  /** `transferGuestData`: the joined-events list written to the account, if
      any. Nothing when the local list is empty; otherwise the account's ids
      followed by the new local ones, written only when that is longer than
      the account's list. */
  function TransferUpdate(localIds: seq<string>, serverIds: seq<string>): (r: Option<seq<string>>)
    ensures localIds == [] ==> r.None?
    ensures r.Some? ==> |r.value| > |serverIds| && NoDups(r.value)
    ensures r.Some? ==> forall x :: x in r.value <==> x in serverIds || x in localIds
    ensures localIds != [] && |Dedup(serverIds + localIds)| > |serverIds| ==> r.Some?
  {
    if localIds == [] then None
    else
      var merged := Dedup(serverIds + localIds);
      DedupMembers(serverIds + localIds);
      if |merged| > |serverIds| then Some(merged) else None
  }

  /** When the account's list has no duplicates, the transfer writes exactly
      when some local id is missing from the account, and the account's ids
      keep their place at the front. */
  lemma TransferWritesIffNew(localIds: seq<string>, serverIds: seq<string>)
    requires NoDups(serverIds)
    ensures TransferUpdate(localIds, serverIds).Some? <==>
              exists x :: x in localIds && x !in serverIds
    ensures TransferUpdate(localIds, serverIds).Some? ==>
              TransferUpdate(localIds, serverIds).value[..|serverIds|] == serverIds
  {
    var merged := Dedup(serverIds + localIds);
    DedupPrefix(serverIds, localIds);
    DedupOfDistinct(serverIds);
    assert merged[..|serverIds|] == serverIds;
    if exists x :: x in localIds && x !in serverIds {
      var x :| x in localIds && x !in serverIds;
      assert x in serverIds + localIds;
      assert x in merged;
      var j :| 0 <= j < |merged| && merged[j] == x;
      assert j >= |serverIds| by {
        forall k | 0 <= k < |serverIds| ensures merged[k] != x {
          assert merged[k] == merged[..|serverIds|][k] == serverIds[k];
        }
      }
    }
    if |merged| > |serverIds| {
      var y := merged[|serverIds|];
      assert y !in serverIds by {
        forall k | 0 <= k < |serverIds| ensures serverIds[k] != y {
          assert serverIds[k] == merged[k];
        }
      }
      assert y in serverIds + localIds;
      assert y in localIds;
    }
  }

  /** With duplicates in the account's list the length test can miss a new
      local id: the account lists "a" twice, the guest joined "b", and
      nothing is written. */
  lemma TransferMissesNewIdAfterDuplicates()
    ensures "b" !in ["a", "a"]
    ensures TransferUpdate(["b"], ["a", "a"]).None?
  {
    var s: seq<string> := ["a", "a", "b"];
    assert s[..2] == ["a", "a"] && s[..1] == ["a"];
    assert ([] + ["a"])[..0] == [];
    assert Dedup(s[..1]) == ["a"];
    assert Dedup(s[..2]) == ["a"];
    assert Dedup(s) == ["a", "b"];
    assert ["a", "a"] + ["b"] == s;
  }

  // ---------------------------------------------------------------------
  // "My events" query
  // ---------------------------------------------------------------------

  function OwnerClause(userId: string): string {
    "owner = \"" + userId + "\""
  }

  /** The clause selecting one joined event by id. */
  function IdClause(id: string): string {
    "id = \"" + id + "\""
  }

  /** `joinedIds.map(id => 'id = "' + id + '"')`. */
  function IdClauses(ids: seq<string>): (r: seq<string>)
    ensures |r| == |ids| && forall k :: 0 <= k < |ids| ==> r[k] == "id = \"" + ids[k] + "\""
  {
    seq(|ids|, k requires 0 <= k < |ids| => IdClause(ids[k]))
  }

  /** The filter of `fetchMyEvents`: the owner clause alone when the account
      has joined nothing, otherwise `(owner clause) || (id clauses joined by
      ' || ')`. */
  function MyEventsFilter(userId: string, joinedIds: seq<string>): (f: string)
    ensures joinedIds == [] ==> f == OwnerClause(userId)
    ensures joinedIds != [] ==>
              f == "(" + OwnerClause(userId) + ") || (" + JoinWith(IdClauses(joinedIds), " || ") + ")"
  {
    var filter := OwnerClause(userId);
    if |joinedIds| > 0 then
      "(" + filter + ") || (" + JoinWith(IdClauses(joinedIds), " || ") + ")"
    else filter
  }

  /** One more joined event adds exactly one ` || ` and its clause just
      before the closing parenthesis. */
  lemma MyEventsFilterSnoc(userId: string, joinedIds: seq<string>, x: string)
    requires joinedIds != []
    ensures var f := MyEventsFilter(userId, joinedIds);
            MyEventsFilter(userId, joinedIds + [x]) == f[..|f| - 1] + " || " + IdClause(x) + ")"
  {
    assert IdClauses(joinedIds + [x]) == IdClauses(joinedIds) + [IdClause(x)];
    JoinSnoc(IdClauses(joinedIds), IdClause(x), " || ");
    CloseAfterAppend("(" + OwnerClause(userId) + ") || (", JoinWith(IdClauses(joinedIds), " || "),
                     " || ", IdClause(x), ")");
  }

  /** Appending inside a closing bracket: the old text without its closing
      part, then the separator, the new part and the closing part again. */
  lemma CloseAfterAppend(head: string, body: string, sep: string, part: string, close: string)
    ensures var f := head + body + close;
            |f| >= |close| && head + (body + sep + part) + close == f[..|f| - |close|] + sep + part + close
  {
    var f := head + body + close;
    assert f[..|f| - |close|] == head + body;
  }

  /** `fetchMyEvents`: nothing without a signed-in user, else the filter. */
  function MyEventsQuery(user: Option<AuthUser>, joinedIds: seq<string>): (q: Option<string>)
    ensures q.None? <==> user.None?
    ensures user.Some? ==> q == Some(MyEventsFilter(user.value.id, joinedIds))
  {
    match user
    case None => None
    case Some(u) => Some(MyEventsFilter(u.id, joinedIds))
  }

  // ---------------------------------------------------------------------
  // Joining and creating events
  // ---------------------------------------------------------------------

  /** `handleJoin`: navigation to `/join/<CODE>` only for a code that is not
      blank; the path carries the whole code upper-cased (untrimmed). */
  function JoinPath(code: string): (r: Option<string>)
    ensures r.Some? <==> !IsBlank(code)
    ensures r.Some? ==> r.value == "/join/" + Upper(code)
  {
    if Trim(code) != "" then Some("/join/" + Upper(code)) else None
  }

  /** Casing does not matter: a code and its upper-cased form lead to the
      same page. */
  lemma JoinPathIgnoresCase(code: string)
    ensures JoinPath(Upper(code)) == JoinPath(code)
  {
    UpperKeepsBlank(code);
    UpperIdempotent(code);
  }

  /** The PIN sent with a new event: the typed PIN in "pin" mode, else "". */
  function PinFor(joinMode: string, pin: string): (r: string)
    ensures joinMode == "pin" ==> r == pin
    ensures joinMode != "pin" ==> r == ""
  {
    if joinMode == "pin" then pin else ""
  }

  /** The "new event" form of the web app. */
  datatype NewEventForm = NewEventForm(
    name: string, code: string, visibility: string, joinMode: string, pin: string,
    description: string, startDate: string, endDate: string)

  /** The record `handleCreateEvent` sends to the backend. */
  datatype EventPayload = EventPayload(
    name: string, code: string, owner: string, date: string, approvalRequired: bool,
    visibility: string, joinMode: string, pin: string, description: string,
    startDate: string, endDate: string)

  /** The create request: the code upper-cased, approval never required, the
      PIN only in "pin" mode, dates converted only when filled in. `toIso`
      stands for `new Date(x).toISOString()`, `nowIso` for the creation time. */
  function CreatePayload(form: NewEventForm, ownerId: string, nowIso: string,
                         toIso: string -> string): (p: EventPayload)
    ensures p.name == form.name && p.owner == ownerId && p.date == nowIso
    ensures p.code == Upper(form.code) && !p.approvalRequired
    ensures p.visibility == form.visibility && p.joinMode == form.joinMode
    ensures p.pin != "" ==> form.joinMode == "pin"
    ensures form.joinMode == "pin" ==> p.pin == form.pin
    ensures p.description == form.description
    ensures p.startDate == (if form.startDate != "" then toIso(form.startDate) else "")
    ensures p.endDate == (if form.endDate != "" then toIso(form.endDate) else "")
  {
    EventPayload(
      form.name, Upper(form.code), ownerId, nowIso, false, form.visibility, form.joinMode,
      PinFor(form.joinMode, form.pin), form.description,
      if form.startDate != "" then toIso(form.startDate) else "",
      if form.endDate != "" then toIso(form.endDate) else "")
  }

  /** The sent code never contains a lower-case ASCII letter. */
  lemma PayloadCodeUpper(form: NewEventForm, ownerId: string, nowIso: string, toIso: string -> string)
    ensures var c := CreatePayload(form, ownerId, nowIso, toIso).code;
            |c| == |form.code| && forall i :: 0 <= i < |c| ==> !IsLowerAscii(c[i])
  {
  }

  // ---------------------------------------------------------------------
  // The page state
  // ---------------------------------------------------------------------

  datatype Mode = GuestMode | HostMode
  datatype SubMode = Login | Dashboard | Create

  /** An event record as the lists on the page hold it. */
  datatype EventRecord = EventRecord(id: string, code: string, name: string)

  /** How a sign-in attempt ended: refused by the backend, or accepted with
      the user record read back from the auth store (if any). */
  datatype LoginOutcome = Refused | SignedIn(user: Option<AuthUser>)

  class LandingPage {
    const words: seq<string>
    var typewriter: Typewriter
    var coverIndex: nat
    var mode: Mode
    var subMode: SubMode
    var code: string
    var email: string
    var password: string
    var myEvents: seq<EventRecord>
    var historyEvents: seq<EventRecord>
    var form: NewEventForm
    var creating: bool
    var loading: bool
    var error: string

    ghost predicate Valid()
      reads this
    {
      |words| > 0 && coverIndex < |Covers| && TypewriterOk(words, typewriter)
    }

    /** Mounting: the headline words are the ten event words shuffled with
        the given random choices. */
    constructor (picks: seq<nat>)
      requires ValidPicks(picks, |EventWords|)
      ensures Valid() && words == Shuffle(EventWords, picks)
      ensures typewriter == Typewriter("", false, 0) && coverIndex == 0
      ensures mode == GuestMode && subMode == Login
      ensures code == "" && email == "" && password == "" && myEvents == [] && historyEvents == []
      ensures form == NewEventForm("", "", "private", "open", "", "", "", "") && !creating
      ensures !loading && error == ""
    {
      var events := ToArray(EventWords);
      FisherYates(events, picks);
      words := events[..];
      typewriter := Typewriter("", false, 0);
      coverIndex := 0;
      mode, subMode := GuestMode, Login;
      code, email, password := "", "", "";
      myEvents, historyEvents := [], [];
      form := NewEventForm("", "", "private", "open", "", "", "", "");
      creating := false;
      loading, error := false, "";
    }

    /** One firing of the headline timer. */
    method Tick()
      requires Valid()
      modifies this`typewriter
      ensures Valid()
      ensures typewriter == TypewriterStep(words, old(typewriter))
    {
      typewriter := TypewriterStep(words, typewriter);
    }

    /** One firing of the cover interval. */
    method RotateCover()
      requires Valid()
      modifies this`coverIndex
      ensures Valid() && coverIndex == NextCover(old(coverIndex))
    {
      coverIndex := (coverIndex + 1) % |Covers|;
    }

    /** The load-time auth check; the result says whether `fetchMyEvents`
        is started. */
    method CheckAuth(authenticated: bool, user: Option<AuthUser>) returns (fetch: bool)
      modifies this`mode, this`subMode
      ensures fetch == ShouldAutoHost(authenticated, user)
      ensures fetch ==> mode == HostMode && subMode == Dashboard
      ensures !fetch ==> mode == old(mode) && subMode == old(subMode)
    {
      fetch := ShouldAutoHost(authenticated, user);
      if fetch {
        mode := HostMode;
        subMode := Dashboard;
      }
    }

    /** The history effect. Clearing happens at once; a fetch is reported
        to the caller and its records arrive through `ReceiveHistory`. */
    method LoadHistory(localIds: seq<string>, serverIds: seq<string>) returns (action: HistoryAction)
      modifies this`historyEvents
      ensures action == HistoryPlan(localIds, serverIds)
      ensures action.ClearHistory? ==> historyEvents == []
      ensures action.FetchHistory? ==> historyEvents == old(historyEvents)
    {
      action := HistoryPlan(localIds, serverIds);
      if action.ClearHistory? {
        historyEvents := [];
      }
    }

    method ReceiveHistory(records: seq<EventRecord>)
      modifies this`historyEvents
      ensures historyEvents == records
    {
      historyEvents := records;
    }

    method ReceiveMyEvents(records: seq<EventRecord>)
      modifies this`myEvents
      ensures myEvents == records
    {
      myEvents := records;
    }

    /** `handleJoin` with the code typed into the form. */
    method Join() returns (path: Option<string>)
      ensures path == JoinPath(code)
    {
      path := JoinPath(code);
    }

    /** The synchronous part of `handleCreateEvent`. An end date before the
        start date (both filled in; `endBeforeStart` is the comparison of the
        parsed dates) is refused and reported; otherwise the request is
        returned and `creating` stays set until `CompleteCreate`. */
    method SubmitCreate(ownerId: string, nowIso: string, toIso: string -> string, endBeforeStart: bool)
      returns (request: Option<EventPayload>)
      modifies this`creating
      ensures form.startDate != "" && form.endDate != "" && endBeforeStart ==>
                request.None? && !creating
      ensures !(form.startDate != "" && form.endDate != "" && endBeforeStart) ==>
                request == Some(CreatePayload(form, ownerId, nowIso, toIso)) && creating
    {
      creating := true;
      if form.startDate != "" && form.endDate != "" && endBeforeStart {
        creating := false;
        request := None;
        return;
      }
      request := Some(CreatePayload(form, ownerId, nowIso, toIso));
    }

    /** The end of `handleCreateEvent`: on success the dashboard is shown and
        the name, code, PIN, description and dates are cleared (visibility
        and join mode are kept); `creating` ends false either way. */
    method CompleteCreate(created: bool) returns (fetch: bool)
      modifies this`subMode, this`form, this`creating
      ensures !creating
      ensures fetch <==> created
      ensures created ==> subMode == Dashboard
                          && form == old(form).(name := "", code := "", pin := "", description := "",
                                                startDate := "", endDate := "")
      ensures !created ==> subMode == old(subMode) && form == old(form)
    {
      fetch := created;
      if created {
        subMode := Dashboard;
        form := form.(name := "", code := "", pin := "", description := "", startDate := "", endDate := "");
      }
      creating := false;
    }

    /** The start of a sign-in: loading is shown; the password form
        (`handleLogin`) also clears the previous error, the social login
        (`handleOAuthLogin`) does not. */
    method BeginLogin(withPassword: bool)
      modifies this`loading, this`error
      ensures loading
      ensures withPassword ==> error == ""
      ensures !withPassword ==> error == old(error)
    {
      loading := true;
      if withPassword {
        error := "";
      }
    }

    /** The end of a sign-in. A refused sign-in shows `failureMessage`
        ("Invalid email or password", or the social-login message). A
        successful one with a user record transfers the guest's joined
        events (the write returned, if any), shows the dashboard and starts
        `fetchMyEvents`, reported by `fetch`. Loading ends either way. */
    method CompleteLogin(outcome: LoginOutcome, failureMessage: string,
                         localIds: seq<string>, serverIds: seq<string>)
      returns (transfer: Option<seq<string>>, fetch: bool)
      modifies this`loading, this`error, this`subMode
      ensures !loading
      ensures outcome.Refused? ==>
                error == failureMessage && subMode == old(subMode) && transfer.None? && !fetch
      ensures outcome.SignedIn? && outcome.user.None? ==>
                error == old(error) && subMode == old(subMode) && transfer.None? && !fetch
      ensures outcome.SignedIn? && outcome.user.Some? ==>
                error == old(error) && subMode == Dashboard && fetch
                && transfer == TransferUpdate(localIds, serverIds)
    {
      transfer, fetch := None, false;
      match outcome {
        case Refused =>
          error := failureMessage;
        case SignedIn(user) =>
          if user.Some? {
            transfer := TransferUpdate(localIds, serverIds);
            subMode := Dashboard;
            fetch := true;
          }
      }
      loading := false;
    }

    /** `handleLogout`: back to guest mode on the login sub-mode, with the
        credentials and the host's event list cleared. */
    method Logout()
      modifies this`mode, this`subMode, this`email, this`password, this`myEvents
      ensures mode == GuestMode && subMode == Login
      ensures email == "" && password == "" && myEvents == []
    {
      mode := GuestMode;
      subMode := Login;
      email := "";
      password := "";
      myEvents := [];
    }
  }
}
