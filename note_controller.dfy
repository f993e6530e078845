/**
 * The note handlers of the API server over the note collection. The collection is a
 * table from note id to stored note; each handler is a query or a single-document
 * update selected by a filter on id, author and visibility, exactly as the handlers
 * build their database filters. The requester is the user id the authentication layer
 * attached to the request, and the current time is a parameter.
 */
module NoteController {
  import opened Wrappers

  type NoteId = nat
  type UserId = string

  /** A stored note. */
  datatype NoteRecord = NoteRecord(title: string, content: string, author: UserId, public: bool,
                                   createdAt: int, updatedAt: int)

  type NoteTable = map<NoteId, NoteRecord>

  /** A database filter: each present field must match. */
  datatype Filter = Filter(id: Option<NoteId>, author: Option<UserId>, public: Option<bool>)

  predicate Matches(f: Filter, id: NoteId, n: NoteRecord) {
    && (f.id.Some? ==> f.id.value == id)
    && (f.author.Some? ==> f.author.value == n.author)
    && (f.public.Some? ==> f.public.value == n.public)
  }

  /** `find(filter)`: every stored note the filter matches. */
  function Find(t: NoteTable, f: Filter): (r: NoteTable)
    ensures forall id :: id in r <==> id in t && Matches(f, id, t[id])
    ensures forall id :: id in r ==> r[id] == t[id]
  {
    map id | id in t && Matches(f, id, t[id]) :: t[id]
  }

  /** `findOne(filter)` for a filter on the id: the one note with that id, if the rest of the filter matches it. */
  function FindOne(t: NoteTable, f: Filter): (r: Option<NoteRecord>)
    requires f.id.Some?
    ensures r.Some? <==> f.id.value in t && Matches(f, f.id.value, t[f.id.value])
    ensures r.Some? ==> r.value == t[f.id.value]
  {
    var id := f.id.value;
    if id in t && Matches(f, id, t[id]) then Some(t[id]) else None
  }

  /** The outcome of a handler that answers with one note or 404. */
  datatype Reply = Ok(note: NoteRecord) | NotFound(message: string)

  // ---------------------------------------------------------------------------
  // Queries

  /** Every public note, whoever wrote it. */
  function GetPublicNotes(t: NoteTable): (r: NoteTable)
    ensures r.Keys <= t.Keys
    ensures forall id :: id in t ==> (id in r <==> t[id].public)
    ensures forall id :: id in r ==> r[id] == t[id]
  {
    Find(t, Filter(None, None, Some(true)))
  }

  /** A note by id for anyone, but only when it is public; a private note is as absent as a missing one. */
  function GetPublicNoteById(t: NoteTable, id: NoteId): (r: Reply)
    ensures r.Ok? <==> id in t && t[id].public
    ensures r.Ok? ==> r.note == t[id]
    ensures r.NotFound? ==> r.message == "Note not found or private"
  {
    match FindOne(t, Filter(Some(id), None, Some(true)))
    case None => NotFound("Note not found or private")
    case Some(n) => Ok(n)
  }

  /** The requester's own notes, public or not. */
  function GetNotes(t: NoteTable, user: UserId): (r: NoteTable)
    ensures r.Keys <= t.Keys
    ensures forall id :: id in t ==> (id in r <==> t[id].author == user)
    ensures forall id :: id in r ==> r[id] == t[id]
  {
    Find(t, Filter(None, Some(user), None))
  }

  /** One of the requester's notes; a note of someone else, or a missing one, is answered with `null`, not 404. */
  function GetNote(t: NoteTable, id: NoteId, user: UserId): (r: Option<NoteRecord>)
    ensures r.Some? <==> id in t && t[id].author == user
    ensures r.Some? ==> r.value == t[id]
  {
    FindOne(t, Filter(Some(id), Some(user), None))
  }

  // ---------------------------------------------------------------------------
  // Mutations, as functions of the table

  /** The request body of a create; a field the client did not send is `None`. */
  datatype CreateBody = CreateBody(title: Option<string>, content: Option<string>, public: Option<bool>)

  datatype CreateReply = Created(id: NoteId, note: NoteRecord) | ValidationFailed

  /** A required string field must be sent and non-empty. */
  predicate RequiredString(field: Option<string>) {
    field.Some? && field.value != ""
  }

  /**
   * A create stores a new note under a fresh id, written by the requester, private unless
   * the body says otherwise; a missing or empty title or content fails validation and
   * stores nothing.
   */
  function Create(t: NoteTable, freshId: NoteId, user: UserId, body: CreateBody, now: int): (res: (CreateReply, NoteTable))
    requires freshId !in t
    ensures res.0.Created? <==> RequiredString(body.title) && RequiredString(body.content)
    ensures res.0.Created? ==>
              && res.0.id == freshId
              && res.1 == t[freshId := res.0.note]
              && res.0.note == NoteRecord(body.title.value, body.content.value, user, body.public.GetOr(false), now, now)
    ensures res.0.ValidationFailed? ==> res.1 == t
  {
    if RequiredString(body.title) && RequiredString(body.content) then
      var note := NoteRecord(body.title.value, body.content.value, user, body.public.GetOr(false), now, now);
      (Created(freshId, note), t[freshId := note])
    else
      (ValidationFailed, t)
  }

  /**
   * An update of the note with the id, if the requester wrote it: title, content and the
   * update time are written, visibility and authorship never. Otherwise 404 and no change.
   */
  function Update(t: NoteTable, id: NoteId, user: UserId, title: string, content: string, now: int): (res: (Reply, NoteTable))
    ensures res.0.Ok? <==> id in t && t[id].author == user
    ensures res.0.NotFound? ==> res.1 == t && res.0.message == "Note not found"
    ensures res.0.Ok? ==>
              && res.1 == t[id := res.0.note]
              && res.0.note.title == title && res.0.note.content == content && res.0.note.updatedAt == now
              && res.0.note.public == t[id].public && res.0.note.author == t[id].author
              && res.0.note.createdAt == t[id].createdAt
  {
    match FindOne(t, Filter(Some(id), Some(user), None))
    case None => (NotFound("Note not found"), t)
    case Some(n) =>
      var updated := n.(title := title, content := content, updatedAt := now);
      (Ok(updated), t[id := updated])
  }

  datatype DeleteReply = Deleted | DeleteNotFound

  /** A delete removes the note with the id if the requester wrote it; otherwise 404 and no change. */
  function Delete(t: NoteTable, id: NoteId, user: UserId): (res: (DeleteReply, NoteTable))
    ensures res.0.Deleted? <==> id in t && t[id].author == user
    ensures res.0.Deleted? ==> res.1 == t - {id}
    ensures res.0.DeleteNotFound? ==> res.1 == t
  {
    if FindOne(t, Filter(Some(id), Some(user), None)).Some? then (Deleted, t - {id}) else (DeleteNotFound, t)
  }

  // ---------------------------------------------------------------------------
  // Properties across handlers

  /** No update or delete by one user changes what another user's notes are. */
  lemma OtherUsersNotesUntouched(t: NoteTable, id: NoteId, user: UserId, other: UserId,
                                 title: string, content: string, now: int)
    requires other != user
    ensures GetNotes(Update(t, id, user, title, content, now).1, other) == GetNotes(t, other)
    ensures GetNotes(Delete(t, id, user).1, other) == GetNotes(t, other)
  {
    var u := Update(t, id, user, title, content, now).1;
    assert GetNotes(u, other).Keys == GetNotes(t, other).Keys;
    var d := Delete(t, id, user).1;
    assert GetNotes(d, other).Keys == GetNotes(t, other).Keys;
  }

  /** An update never changes which notes are public: a private note cannot be published by editing it. */
  lemma UpdateKeepsPublicSet(t: NoteTable, id: NoteId, user: UserId, title: string, content: string, now: int)
    ensures GetPublicNotes(Update(t, id, user, title, content, now).1).Keys == GetPublicNotes(t).Keys
  {
  }

  /** A created note is at once among the requester's notes and readable by them, and by nobody else through `GetNote`. */
  lemma CreatedNoteIsOwn(t: NoteTable, freshId: NoteId, user: UserId, other: UserId, body: CreateBody, now: int)
    requires freshId !in t
    requires RequiredString(body.title) && RequiredString(body.content)
    requires other != user
    ensures var (reply, t') := Create(t, freshId, user, body, now);
            && GetNote(t', freshId, user) == Some(reply.note)
            && GetNote(t', freshId, other) == None
            && GetNotes(t', user) == GetNotes(t, user)[freshId := reply.note]
            && (body.public.None? ==> GetPublicNoteById(t', freshId).NotFound?)
  {
    var (reply, t') := Create(t, freshId, user, body, now);
    assert GetNotes(t', user).Keys == GetNotes(t, user).Keys + {freshId};
  }

  /** After a successful delete the note is gone from every query. */
  lemma DeletedNoteIsGone(t: NoteTable, id: NoteId, user: UserId, anyone: UserId)
    requires id in t && t[id].author == user
    ensures var t' := Delete(t, id, user).1;
            && GetNote(t', id, anyone) == None
            && GetPublicNoteById(t', id).NotFound?
            && id !in GetNotes(t', anyone)
            && id !in GetPublicNotes(t')
  {
  }

  // ---------------------------------------------------------------------------
  // The collection

  /** The note collection, updated in place by the create, update and delete handlers. */
  class NoteCollection {
    var notes: NoteTable
    var nextId: NoteId

    /** Every stored id was handed out before `nextId`, so `nextId` is always fresh. */
    ghost predicate Valid()
      reads this
    {
      forall id :: id in notes ==> id < nextId
    }

    constructor ()
      ensures Valid() && notes == map[]
    {
      notes := map[];
      nextId := 0;
    }

    method CreateNote(user: UserId, body: CreateBody, now: int) returns (reply: CreateReply)
      requires Valid()
      modifies this
      ensures Valid()
      ensures old(nextId) !in old(notes)
      ensures (reply, notes) == Create(old(notes), old(nextId), user, body, now)
    {
      var title, content := body.title, body.content;
      if title.None? || title.value == "" || content.None? || content.value == "" {
        return ValidationFailed;
      }
      var isPublic := if body.public.Some? then body.public.value else false;
      var note := NoteRecord(title.value, content.value, user, isPublic, now, now);
      var id := nextId;
      notes := notes[id := note];
      nextId := nextId + 1;
      reply := Created(id, note);
    }

    method UpdateNote(id: NoteId, user: UserId, title: string, content: string, now: int) returns (reply: Reply)
      requires Valid()
      modifies this
      ensures Valid() && nextId == old(nextId)
      ensures (reply, notes) == Update(old(notes), id, user, title, content, now)
    {
      if id !in notes || notes[id].author != user {
        return NotFound("Note not found");
      }
      var updated := notes[id].(title := title, content := content, updatedAt := now);
      notes := notes[id := updated];
      reply := Ok(updated);
    }

    method DeleteNote(id: NoteId, user: UserId) returns (reply: DeleteReply)
      requires Valid()
      modifies this
      ensures Valid() && nextId == old(nextId)
      ensures (reply, notes) == Delete(old(notes), id, user)
    {
      if id !in notes || notes[id].author != user {
        return DeleteNotFound;
      }
      notes := notes - {id};
      reply := Deleted;
    }
  }
}
