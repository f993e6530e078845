/**
 * The note editor in the web client: the local title, content and visibility of one
 * note, the roster of people editing it, the relay messages the client emits to the
 * collaboration socket, and the single debounced auto-save slot that turns a burst of
 * keystrokes into one store update.
 *
 * Each handler is a transition on an `EditorState` value; the class `NoteEditorClient`
 * holds the same state in fields and its methods are proved to perform exactly these
 * transitions. Timers are explicit steps: arming the auto-save timer records a pending
 * `Draft`, and `TimerFired` is the moment the timer runs out.
 */
module NoteEditor {
  import opened Wrappers
  import JsText

  /** A message the client emits on its socket. */
  datatype OutMsg =
    | JoinNote(noteId: string, userName: string)
    | EditNote(noteId: string, content: string)
    | EditTitle(noteId: string, title: string)
    | EditPublicStatus(noteId: string, public: bool)

  /** A call to the note API's update endpoint. */
  datatype UpdateCall =
    | SaveTitleContent(noteId: string, title: string, content: string)
    | SavePublic(noteId: string, public: bool)

  /** The arguments the armed auto-save timer will save with, fixed when it was armed. */
  datatype Draft = Draft(content: string, title: string)

  /** The fields of a note the editor loads. */
  datatype FetchedNote = FetchedNote(title: string, content: string, public: bool)

  datatype EditorState = EditorState(
    noteId: string,
    loading: bool,
    leftEditor: bool,            // the client navigated back to "/"
    title: string,
    content: string,
    isPublic: bool,
    activeUsers: seq<string>,
    userName: string,
    socketOpen: bool,            // a socket exists (it is created once the user name is known)
    isRemoteUpdate: bool,        // a remote content update is being applied to the editor
    pending: Option<Draft>,      // the one auto-save timer slot
    outbox: seq<OutMsg>,
    updateCalls: seq<UpdateCall>)

  function Initial(noteId: string): EditorState {
    EditorState(noteId, true, false, "", "", false, [], "", false, false, None, [], [])
  }

  /** `socket?.emit(m)`: nothing is sent while there is no socket. */
  function Emitted(s: EditorState, m: OutMsg): seq<OutMsg> {
    if s.socketOpen then s.outbox + [m] else s.outbox
  }

  // ---------------------------------------------------------------------------
  // Transitions

  /**
   * The initial load: the note's fields are taken over when the fetch succeeded, then
   * the user name when the second fetch succeeded; either failure sends the client home.
   * Loading ends either way, and nothing is emitted, saved or armed.
   */
  function Loaded(s: EditorState, fetched: Option<FetchedNote>, user: Option<string>): (r: EditorState)
    ensures !r.loading
    ensures r.leftEditor <==> s.leftEditor || fetched.None? || user.None?
    ensures fetched.Some? ==>
      r.title == fetched.value.title && r.content == fetched.value.content && r.isPublic == fetched.value.public
    ensures fetched.None? ==> r.title == s.title && r.content == s.content && r.isPublic == s.isPublic
    ensures r.userName == if fetched.Some? && user.Some? then user.value else s.userName
    ensures r.(loading := s.loading, leftEditor := s.leftEditor, title := s.title, content := s.content,
               isPublic := s.isPublic, userName := s.userName) == s
  {
    match fetched
    case None => s.(leftEditor := true, loading := false)
    case Some(n) =>
      var s1 := s.(title := n.title, content := n.content, isPublic := n.public, loading := false);
      match user
      case None => s1.(leftEditor := true)
      case Some(name) => s1.(userName := name)
  }

  /** The socket is set up only once a user name is known. */
  function SocketOpened(s: EditorState): (r: EditorState)
    ensures r.socketOpen <==> s.socketOpen || s.userName != ""
    ensures r.(socketOpen := s.socketOpen) == s
  {
    if s.userName == "" then s else s.(socketOpen := true)
  }

  /** On every (re)connect the client announces itself in the note's room. */
  function Connected(s: EditorState): (r: EditorState)
    ensures s.socketOpen ==> r.outbox == s.outbox + [JoinNote(s.noteId, s.userName)]
    ensures !s.socketOpen ==> r == s
    ensures r.(outbox := s.outbox) == s
  {
    if s.socketOpen then s.(outbox := s.outbox + [JoinNote(s.noteId, s.userName)]) else s
  }

  /**
   * A local content edit: relayed at once (when a socket exists), and the auto-save timer
   * re-armed with the new content and the current title. No update call is made.
   */
  function ContentChanged(s: EditorState, newContent: string): (r: EditorState)
    ensures r.content == newContent
    ensures r.outbox == s.outbox + (if s.socketOpen then [EditNote(s.noteId, newContent)] else [])
    ensures r.pending == Some(Draft(newContent, s.title))
    ensures r.(content := s.content, outbox := s.outbox, pending := s.pending) == s
  {
    s.(content := newContent,
       outbox := Emitted(s, EditNote(s.noteId, newContent)),
       pending := Some(Draft(newContent, s.title)))
  }

  /**
   * A local title edit: relayed at once (when a socket exists), and the auto-save timer
   * re-armed with the current content and the new title. No update call is made.
   */
  function TitleChanged(s: EditorState, newTitle: string): (r: EditorState)
    ensures r.title == newTitle
    ensures r.outbox == s.outbox + (if s.socketOpen then [EditTitle(s.noteId, newTitle)] else [])
    ensures r.pending == Some(Draft(s.content, newTitle))
    ensures r.(title := s.title, outbox := s.outbox, pending := s.pending) == s
  {
    s.(title := newTitle,
       outbox := Emitted(s, EditTitle(s.noteId, newTitle)),
       pending := Some(Draft(s.content, newTitle)))
  }

  /** The rich-text editor's change callback: ignored while a remote update is being applied. */
  function EditorChanged(s: EditorState, json: string): (r: EditorState)
    ensures s.isRemoteUpdate ==> r == s
    ensures !s.isRemoteUpdate ==> r.content == json && r.pending == Some(Draft(json, s.title))
    ensures r.isRemoteUpdate == s.isRemoteUpdate && r.title == s.title && r.updateCalls == s.updateCalls
  {
    if s.isRemoteUpdate then s else ContentChanged(s, json)
  }

  /**
   * The auto-save timer runs out: one update call with the draft it was armed with.
   * Whether the call then succeeds or fails changes nothing (a failure is only logged)
   * and nothing is re-armed.
   */
  function TimerFired(s: EditorState): (r: EditorState)
    ensures r.pending == None
    ensures s.pending.None? ==> r == s
    ensures s.pending.Some? ==>
      r.updateCalls == s.updateCalls + [SaveTitleContent(s.noteId, s.pending.value.title, s.pending.value.content)]
    ensures r.(pending := s.pending, updateCalls := s.updateCalls) == s
  {
    match s.pending
    case None => s
    case Some(d) =>
      s.(pending := None, updateCalls := s.updateCalls + [SaveTitleContent(s.noteId, d.title, d.content)])
  }

  /**
   * The visibility toggle, not debounced: the update call is made at once; only when it
   * succeeds is the flag flipped locally and the new status relayed.
   */
  function PublicToggled(s: EditorState, updateSucceeded: bool): (r: EditorState)
    ensures r.updateCalls == s.updateCalls + [SavePublic(s.noteId, !s.isPublic)]
    ensures r.isPublic == (s.isPublic != updateSucceeded)
    ensures r.outbox ==
      s.outbox + (if updateSucceeded && s.socketOpen then [EditPublicStatus(s.noteId, !s.isPublic)] else [])
    ensures r.(isPublic := s.isPublic, outbox := s.outbox, updateCalls := s.updateCalls) == s
  {
    var newStatus := !s.isPublic;
    var s1 := s.(updateCalls := s.updateCalls + [SavePublic(s.noteId, newStatus)]);
    if updateSucceeded then
      s1.(isPublic := newStatus, outbox := Emitted(s, EditPublicStatus(s.noteId, newStatus)))
    else
      s1
  }

  /** Remote content replaces the local content; the editor change it causes must not be relayed back. */
  function ReceiveChanges(s: EditorState, newContent: string): (r: EditorState)
    ensures r.content == newContent && r.isRemoteUpdate
    ensures r.(content := s.content, isRemoteUpdate := s.isRemoteUpdate) == s
  {
    s.(content := newContent, isRemoteUpdate := true)
  }

  /** The zero-delay timer after a remote content update clears the flag. */
  function RemoteUpdateSettled(s: EditorState): (r: EditorState)
    ensures !r.isRemoteUpdate
    ensures r.(isRemoteUpdate := s.isRemoteUpdate) == s
  {
    s.(isRemoteUpdate := false)
  }

  /** A remote title replaces the local one; nothing is relayed back or saved. */
  function ReceiveTitle(s: EditorState, newTitle: string): (r: EditorState)
    ensures r.title == newTitle
    ensures r.(title := s.title) == s
  {
    s.(title := newTitle)
  }

  /** A remote visibility replaces the local flag; nothing is relayed back or saved. */
  function ReceivePublicStatus(s: EditorState, newStatus: bool): (r: EditorState)
    ensures r.isPublic == newStatus
    ensures r.(isPublic := s.isPublic) == s
  {
    s.(isPublic := newStatus)
  }

  /** The roster from the server replaces the local one whole. */
  function ReceiveActiveUsers(s: EditorState, users: seq<string>): (r: EditorState)
    ensures r.activeUsers == users
    ensures r.(activeUsers := s.activeUsers) == s
  {
    s.(activeUsers := users)
  }

  // ---------------------------------------------------------------------------
  // Bursts of local edits

  datatype LocalEdit = ContentEdit(content: string) | TitleEdit(title: string)

  function ApplyEdit(s: EditorState, e: LocalEdit): EditorState {
    match e
    case ContentEdit(c) => ContentChanged(s, c)
    case TitleEdit(t) => TitleChanged(s, t)
  }

  /** A burst: the edits applied in order with no timer firing in between. */
  function Burst(s: EditorState, edits: seq<LocalEdit>): EditorState
    decreases |edits|
  {
    if edits == [] then s else Burst(ApplyEdit(s, edits[0]), edits[1..])
  }

  function RelayOf(noteId: string, e: LocalEdit): OutMsg {
    match e
    case ContentEdit(c) => EditNote(noteId, c)
    case TitleEdit(t) => EditTitle(noteId, t)
  }

  /** One relay message per edit, in the order of the edits. */
  function Relays(noteId: string, edits: seq<LocalEdit>): (r: seq<OutMsg>)
    ensures |r| == |edits|
  {
    seq(|edits|, i requires 0 <= i < |edits| => RelayOf(noteId, edits[i]))
  }

  /** The content of the last content edit of the burst, or `c0` when it has none. */
  function LastContent(c0: string, edits: seq<LocalEdit>): string {
    if edits == [] then c0
    else match edits[|edits| - 1]
      case ContentEdit(c) => c
      case TitleEdit(_) => LastContent(c0, edits[..|edits| - 1])
  }

  /** The title of the last title edit of the burst, or `t0` when it has none. */
  function LastTitle(t0: string, edits: seq<LocalEdit>): string {
    if edits == [] then t0
    else match edits[|edits| - 1]
      case TitleEdit(t) => t
      case ContentEdit(_) => LastTitle(t0, edits[..|edits| - 1])
  }

  lemma {:induction false} BurstSnoc(s: EditorState, edits: seq<LocalEdit>, e: LocalEdit)
    ensures Burst(s, edits + [e]) == ApplyEdit(Burst(s, edits), e)
    decreases |edits|
  {
    if edits != [] {
      assert (edits + [e])[0] == edits[0];
      assert (edits + [e])[1..] == edits[1..] + [e];
      BurstSnoc(ApplyEdit(s, edits[0]), edits[1..], e);
    } else {
      assert [e][1..] == [];
    }
  }

  /**
   * What a burst does: content and title are those of the last edit of each kind, the
   * one timer slot holds both of them, every edit was relayed once and in order (when
   * there is a socket), and nothing else changed — in particular no update call was made.
   */
  lemma {:induction false} BurstEffect(s: EditorState, edits: seq<LocalEdit>)
    ensures var b := Burst(s, edits);
            && b.content == LastContent(s.content, edits)
            && b.title == LastTitle(s.title, edits)
            && b.pending == (if edits == [] then s.pending else Some(Draft(b.content, b.title)))
            && b.outbox == s.outbox + (if s.socketOpen then Relays(s.noteId, edits) else [])
            && b == s.(content := b.content, title := b.title, pending := b.pending, outbox := b.outbox)
    decreases |edits|
  {
    if edits != [] {
      var init, e := edits[..|edits| - 1], edits[|edits| - 1];
      assert edits == init + [e];
      BurstSnoc(s, init, e);
      BurstEffect(s, init);
      var b0 := Burst(s, init);
      var b := Burst(s, edits);
      assert b == ApplyEdit(b0, e);
      match e {
        case ContentEdit(c) =>
          assert LastContent(s.content, edits) == c;
          assert LastTitle(s.title, edits) == LastTitle(s.title, init);
          assert b == ContentChanged(b0, c);
        case TitleEdit(t) =>
          assert LastTitle(s.title, edits) == t;
          assert LastContent(s.content, edits) == LastContent(s.content, init);
          assert b == TitleChanged(b0, t);
      }
      if s.socketOpen {
        assert Relays(s.noteId, edits) == Relays(s.noteId, init) + [RelayOf(s.noteId, e)];
      }
    }
  }

  /**
   * However many edits a burst holds, the timer firing afterwards makes exactly one
   * update call, carrying the last content and the last title, and leaves no timer armed.
   */
  lemma BurstSavesOnce(s: EditorState, edits: seq<LocalEdit>)
    requires |edits| >= 1
    ensures var f := TimerFired(Burst(s, edits));
            && f.updateCalls == s.updateCalls
                 + [SaveTitleContent(s.noteId, LastTitle(s.title, edits), LastContent(s.content, edits))]
            && f.pending == None
  {
    BurstEffect(s, edits);
  }

  /** Once the timer has fired nothing is pending, so firing again saves nothing: a failed save is not retried. */
  lemma NoRetryAfterFiring(s: EditorState)
    ensures TimerFired(s).pending == None
    ensures TimerFired(TimerFired(s)) == TimerFired(s)
    ensures s.pending.Some? ==> |TimerFired(s).updateCalls| == |s.updateCalls| + 1
  {
  }

  /** Each local edit is relayed at once, by exactly one message carrying the new value. */
  lemma EditRelayedImmediately(s: EditorState, e: LocalEdit)
    requires s.socketOpen
    ensures ApplyEdit(s, e).outbox == s.outbox + [RelayOf(s.noteId, e)]
    ensures ApplyEdit(s, e).updateCalls == s.updateCalls
  {
  }

  // ---------------------------------------------------------------------------
  // Visibility toggle

  /** The toggle asks the store for the opposite flag at once; success flips and relays, failure changes nothing else. */
  lemma TogglePublicEffect(s: EditorState, updateSucceeded: bool)
    ensures var t := PublicToggled(s, updateSucceeded);
            && t.updateCalls == s.updateCalls + [SavePublic(s.noteId, !s.isPublic)]
            && t.pending == s.pending
            && (updateSucceeded ==> t.isPublic == !s.isPublic && t.outbox == Emitted(s, EditPublicStatus(s.noteId, !s.isPublic)))
            && (!updateSucceeded ==> t.isPublic == s.isPublic && t.outbox == s.outbox)
  {
  }

  // ---------------------------------------------------------------------------
  // Remote updates

  datatype RemoteEvent =
    | ReceivedChanges(content: string)
    | ReceivedTitle(title: string)
    | ReceivedPublicStatus(public: bool)
    | ReceivedActiveUsers(users: seq<string>)

  function ApplyRemote(s: EditorState, ev: RemoteEvent): EditorState {
    match ev
    case ReceivedChanges(c) => ReceiveChanges(s, c)
    case ReceivedTitle(t) => ReceiveTitle(s, t)
    case ReceivedPublicStatus(b) => ReceivePublicStatus(s, b)
    case ReceivedActiveUsers(u) => ReceiveActiveUsers(s, u)
  }

  function ApplyRemotes(s: EditorState, evs: seq<RemoteEvent>): EditorState
    decreases |evs|
  {
    if evs == [] then s else ApplyRemotes(ApplyRemote(s, evs[0]), evs[1..])
  }

  /** The content of the last received content update, or `c0` when there was none. */
  function LastReceivedContent(c0: string, evs: seq<RemoteEvent>): string {
    if evs == [] then c0
    else if evs[|evs| - 1].ReceivedChanges? then evs[|evs| - 1].content
    else LastReceivedContent(c0, evs[..|evs| - 1])
  }

  function LastReceivedTitle(t0: string, evs: seq<RemoteEvent>): string {
    if evs == [] then t0
    else if evs[|evs| - 1].ReceivedTitle? then evs[|evs| - 1].title
    else LastReceivedTitle(t0, evs[..|evs| - 1])
  }

  function LastReceivedStatus(p0: bool, evs: seq<RemoteEvent>): bool {
    if evs == [] then p0
    else if evs[|evs| - 1].ReceivedPublicStatus? then evs[|evs| - 1].public
    else LastReceivedStatus(p0, evs[..|evs| - 1])
  }

  function LastRoster(u0: seq<string>, evs: seq<RemoteEvent>): seq<string> {
    if evs == [] then u0
    else if evs[|evs| - 1].ReceivedActiveUsers? then evs[|evs| - 1].users
    else LastRoster(u0, evs[..|evs| - 1])
  }

  lemma {:induction false} ApplyRemotesSnoc(s: EditorState, evs: seq<RemoteEvent>, ev: RemoteEvent)
    ensures ApplyRemotes(s, evs + [ev]) == ApplyRemote(ApplyRemotes(s, evs), ev)
    decreases |evs|
  {
    if evs != [] {
      assert (evs + [ev])[0] == evs[0];
      assert (evs + [ev])[1..] == evs[1..] + [ev];
      ApplyRemotesSnoc(ApplyRemote(s, evs[0]), evs[1..], ev);
    } else {
      assert [ev][1..] == [];
    }
  }

  /**
   * Last writer wins: after any stream of remote updates each field holds the last value
   * received for it (the roster is replaced whole), and remote updates never emit a
   * message, never make an update call and never touch the armed auto-save.
   */
  lemma {:induction false} RemoteLastWriterWins(s: EditorState, evs: seq<RemoteEvent>)
    ensures var r := ApplyRemotes(s, evs);
            && r.content == LastReceivedContent(s.content, evs)
            && r.title == LastReceivedTitle(s.title, evs)
            && r.isPublic == LastReceivedStatus(s.isPublic, evs)
            && r.activeUsers == LastRoster(s.activeUsers, evs)
            && r.outbox == s.outbox
            && r.updateCalls == s.updateCalls
            && r.pending == s.pending
            && r.noteId == s.noteId
    decreases |evs|
  {
    if evs != [] {
      var init, ev := evs[..|evs| - 1], evs[|evs| - 1];
      assert evs == init + [ev];
      ApplyRemotesSnoc(s, init, ev);
      RemoteLastWriterWins(s, init);
      var r0 := ApplyRemotes(s, init);
      assert ApplyRemotes(s, evs) == ApplyRemote(r0, ev);
      match ev {
        case ReceivedChanges(c) =>
          assert LastReceivedTitle(s.title, evs) == LastReceivedTitle(s.title, init);
          assert LastReceivedStatus(s.isPublic, evs) == LastReceivedStatus(s.isPublic, init);
          assert LastRoster(s.activeUsers, evs) == LastRoster(s.activeUsers, init);
        case ReceivedTitle(t) =>
          assert LastReceivedContent(s.content, evs) == LastReceivedContent(s.content, init);
          assert LastReceivedStatus(s.isPublic, evs) == LastReceivedStatus(s.isPublic, init);
          assert LastRoster(s.activeUsers, evs) == LastRoster(s.activeUsers, init);
        case ReceivedPublicStatus(b) =>
          assert LastReceivedContent(s.content, evs) == LastReceivedContent(s.content, init);
          assert LastReceivedTitle(s.title, evs) == LastReceivedTitle(s.title, init);
          assert LastRoster(s.activeUsers, evs) == LastRoster(s.activeUsers, init);
        case ReceivedActiveUsers(u) =>
          assert LastReceivedContent(s.content, evs) == LastReceivedContent(s.content, init);
          assert LastReceivedTitle(s.title, evs) == LastReceivedTitle(s.title, init);
          assert LastReceivedStatus(s.isPublic, evs) == LastReceivedStatus(s.isPublic, init);
      }
    }
  }

  /**
   * The auto-save payload is fixed when the timer is armed: remote updates that arrive
   * before it fires do not reach the save, which writes the local edit over them.
   */
  lemma PendingSaveIgnoresRemoteUpdates(s: EditorState, newContent: string, evs: seq<RemoteEvent>)
    ensures TimerFired(ApplyRemotes(ContentChanged(s, newContent), evs)).updateCalls
            == s.updateCalls + [SaveTitleContent(s.noteId, s.title, newContent)]
  {
    RemoteLastWriterWins(ContentChanged(s, newContent), evs);
  }

  function EditorChanges(s: EditorState, jsons: seq<string>): EditorState
    decreases |jsons|
  {
    if jsons == [] then s else EditorChanges(EditorChanged(s, jsons[0]), jsons[1..])
  }

  /**
   * Echo suppression: while the remote-update flag is up, whatever change callbacks the
   * editor raises neither relay, re-arm the auto-save, nor alter the applied content.
   */
  lemma {:induction false} RemoteContentNotEchoed(s: EditorState, newContent: string, jsons: seq<string>)
    ensures EditorChanges(ReceiveChanges(s, newContent), jsons) == ReceiveChanges(s, newContent)
    decreases |jsons|
  {
    if jsons != [] {
      RemoteContentNotEchoed(s, newContent, jsons[1..]);
    }
  }

  /** Once the flag is cleared, an editor change is an ordinary local content edit again. */
  lemma LocalChangeAfterSettle(s: EditorState, json: string)
    ensures EditorChanged(RemoteUpdateSettled(s), json) == ContentChanged(RemoteUpdateSettled(s), json)
  {
  }

  // ---------------------------------------------------------------------------
  // Initials in the roster

  /** `word[0]`, which joins as "" for an empty word. */
  function FirstLetter(word: string): (r: string)
    ensures |r| <= 1 && |r| <= |word| && r == word[..|r|]
    ensures r == "" <==> word == ""
  {
    if word == "" then "" else [word[0]]
  }

  function FirstLetters(words: seq<string>): (r: seq<string>)
    ensures |r| == |words|
  {
    if words == [] then [] else [FirstLetter(words[0])] + FirstLetters(words[1..])
  }

  /**
   * `name.split(" ").map(word => word[0]).join("").toUpperCase()`: never longer than the
   * name, and never holding a space.
   */
  function Initials(name: string): (r: string)
    ensures |r| <= |name|
    ensures ' ' !in r
  {
    FirstLettersAreWordStarts(name);
    JsText.ToUpper(JsText.Join(FirstLetters(JsText.Split(name, ' ')), ""))
  }

  /** The initials shown for each entry of the roster, in roster order. */
  function RosterInitials(users: seq<string>): (r: seq<string>)
    ensures |r| == |users|
    ensures forall i :: 0 <= i < |users| ==> r[i] == Initials(users[i])
  {
    seq(|users|, i requires 0 <= i < |users| => Initials(users[i]))
  }

  /**
   * The characters that begin a word: each non-space character at the start or right
   * after a space (`atStart` says whether the first character of `s` is in that position).
   */
  function WordStarts(s: string, atStart: bool): (r: string)
    ensures |r| <= |s|
    ensures ' ' !in r
  {
    if s == [] then ""
    else (if s[0] != ' ' && atStart then [s[0]] else "") + WordStarts(s[1..], s[0] == ' ')
  }

  lemma {:induction false} JoinNoSeparator(parts: seq<string>)
    requires |parts| >= 1
    ensures JsText.Join(parts, "") == parts[0] + JsText.Join(parts[1..], "")
  {
    if |parts| == 1 {
      assert parts[0] + "" == parts[0];
    }
  }

  lemma {:induction false} FirstLettersAreWordStarts(s: string)
    ensures JsText.Join(FirstLetters(JsText.Split(s, ' ')), "") == WordStarts(s, true)
    ensures JsText.Join(FirstLetters(JsText.Split(s, ' ')[1..]), "") == WordStarts(s, false)
  {
    var ws := JsText.Split(s, ' ');
    if s != [] {
      var rest := JsText.Split(s[1..], ' ');
      FirstLettersAreWordStarts(s[1..]);
      JoinNoSeparator(FirstLetters(ws));
      if s[0] == ' ' {
        assert ws[1..] == rest;
        assert FirstLetters(ws)[1..] == FirstLetters(rest);
      } else {
        assert ws[1..] == rest[1..];
        assert FirstLetters(ws)[1..] == FirstLetters(rest[1..]);
        assert FirstLetter(ws[0]) == [s[0]];
      }
    }
  }

  /** The initials are the upper-cased first characters of the words, in order, one per non-empty word. */
  lemma InitialsAreWordStarts(name: string)
    ensures Initials(name) == JsText.ToUpper(WordStarts(name, true))
  {
    FirstLettersAreWordStarts(name);
  }

  lemma {:induction false} JoinedFirstLettersLength(words: seq<string>)
    ensures |JsText.Join(FirstLetters(words), "")| <= |words|
  {
    if words != [] {
      JoinNoSeparator(FirstLetters(words));
      assert FirstLetters(words)[1..] == FirstLetters(words[1..]);
      JoinedFirstLettersLength(words[1..]);
    }
  }

  /** At most one initial per space-separated word. */
  lemma InitialsAtMostOnePerWord(name: string)
    ensures |Initials(name)| <= |JsText.Split(name, ' ')|
  {
    JoinedFirstLettersLength(JsText.Split(name, ' '));
  }

  // ---------------------------------------------------------------------------
  // The component

  /** The editor component's state and refs; each handler performs its transition above. */
  class NoteEditorClient {
    const noteId: string
    var loading: bool
    var leftEditor: bool
    var title: string
    var content: string
    var isPublic: bool
    var activeUsers: seq<string>
    var userName: string
    var socketOpen: bool
    var isRemoteUpdate: bool
    var autoSaveTimer: Option<Draft>
    var outbox: seq<OutMsg>
    var updateCalls: seq<UpdateCall>

    function Snapshot(): EditorState
      reads this
    {
      EditorState(noteId, loading, leftEditor, title, content, isPublic, activeUsers, userName,
                  socketOpen, isRemoteUpdate, autoSaveTimer, outbox, updateCalls)
    }

    constructor (noteId: string)
      ensures Snapshot() == Initial(noteId)
    {
      this.noteId := noteId;
      loading, leftEditor := true, false;
      title, content, isPublic := "", "", false;
      activeUsers, userName := [], "";
      socketOpen, isRemoteUpdate := false, false;
      autoSaveTimer := None;
      outbox, updateCalls := [], [];
    }

    method Load(fetched: Option<FetchedNote>, user: Option<string>)
      modifies this
      ensures Snapshot() == Loaded(old(Snapshot()), fetched, user)
    {
      if fetched.None? {
        leftEditor := true;
      } else {
        title, content, isPublic := fetched.value.title, fetched.value.content, fetched.value.public;
        if user.None? {
          leftEditor := true;
        } else {
          userName := user.value;
        }
      }
      loading := false;
    }

    method OpenSocket()
      modifies this
      ensures Snapshot() == SocketOpened(old(Snapshot()))
    {
      if userName != "" {
        socketOpen := true;
      }
    }

    method OnConnect()
      modifies this
      ensures Snapshot() == Connected(old(Snapshot()))
    {
      if socketOpen {
        outbox := outbox + [JoinNote(noteId, userName)];
      }
    }

    /** `socket?.emit(m)` */
    method EmitIfConnected(m: OutMsg)
      modifies this
      ensures Snapshot() == old(Snapshot()).(outbox := Emitted(old(Snapshot()), m))
    {
      if socketOpen {
        outbox := outbox + [m];
      }
    }

    method HandleContentChange(newContent: string)
      modifies this
      ensures Snapshot() == ContentChanged(old(Snapshot()), newContent)
    {
      content := newContent;
      EmitIfConnected(EditNote(noteId, newContent));
      // clearTimeout of the armed timer, then setTimeout with the new draft
      autoSaveTimer := Some(Draft(newContent, title));
    }

    method HandleTitleChange(newTitle: string)
      modifies this
      ensures Snapshot() == TitleChanged(old(Snapshot()), newTitle)
    {
      title := newTitle;
      EmitIfConnected(EditTitle(noteId, newTitle));
      // clearTimeout of the armed timer, then setTimeout with the new draft
      autoSaveTimer := Some(Draft(content, newTitle));
    }

    method OnEditorChange(json: string)
      modifies this
      ensures Snapshot() == EditorChanged(old(Snapshot()), json)
    {
      if !isRemoteUpdate {
        HandleContentChange(json);
      }
    }

    method AutoSaveTimerFired()
      modifies this
      ensures Snapshot() == TimerFired(old(Snapshot()))
    {
      if autoSaveTimer.Some? {
        var draft := autoSaveTimer.value;
        autoSaveTimer := None;
        updateCalls := updateCalls + [SaveTitleContent(noteId, draft.title, draft.content)];
      }
    }

    method TogglePublic(updateSucceeded: bool)
      modifies this
      ensures Snapshot() == PublicToggled(old(Snapshot()), updateSucceeded)
    {
      var newStatus := !isPublic;
      updateCalls := updateCalls + [SavePublic(noteId, newStatus)];
      if updateSucceeded {
        isPublic := newStatus;
        EmitIfConnected(EditPublicStatus(noteId, newStatus));
      }
    }

    method OnReceiveChanges(newContent: string)
      modifies this
      ensures Snapshot() == ReceiveChanges(old(Snapshot()), newContent)
    {
      content := newContent;
      isRemoteUpdate := true;
    }

    method OnRemoteUpdateSettled()
      modifies this
      ensures Snapshot() == RemoteUpdateSettled(old(Snapshot()))
    {
      isRemoteUpdate := false;
    }

    method OnReceiveTitle(newTitle: string)
      modifies this
      ensures Snapshot() == ReceiveTitle(old(Snapshot()), newTitle)
    {
      title := newTitle;
    }

    method OnReceivePublicStatus(newStatus: bool)
      modifies this
      ensures Snapshot() == ReceivePublicStatus(old(Snapshot()), newStatus)
    {
      isPublic := newStatus;
    }

    method OnActiveUsers(users: seq<string>)
      modifies this
      ensures Snapshot() == ReceiveActiveUsers(old(Snapshot()), users)
    {
      activeUsers := users;
    }
  }
}
