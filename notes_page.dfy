/**
 * The notes overview page of the web client: the list of the user's notes held as
 * page state, the list updaters run after a delete or a visibility toggle succeeds,
 * and the text shown on each note card (a plain-text preview pulled out of the
 * editor's serialized document, and the title fallback).
 */
module NotesPage {
  import opened Wrappers
  import JsText

  /** A note as the client receives it from the note API. */
  datatype Note = Note(id: string, title: string, content: string, author: string,
                       public: bool, updatedAt: string, createdAt: string)

  // ---------------------------------------------------------------------------
  // List updaters

  /** The delete updater: every note with the given id leaves the list. */
  function RemoveNote(notes: seq<Note>, id: string): (r: seq<Note>)
    ensures forall n :: n in r <==> n in notes && n.id != id
    ensures |r| <= |notes|
    ensures (forall k :: 0 <= k < |notes| ==> notes[k].id != id) ==> r == notes
  {
    if notes == [] then []
    else if notes[0].id == id then RemoveNote(notes[1..], id)
    else [notes[0]] + RemoveNote(notes[1..], id)
  }

  /** Removing from a concatenation removes from each half in place: the kept notes keep their order. */
  lemma {:induction false} RemoveNoteKeepsOrder(a: seq<Note>, b: seq<Note>, id: string)
    ensures RemoveNote(a + b, id) == RemoveNote(a, id) + RemoveNote(b, id)
  {
    if a == [] {
      assert a + b == b;
    } else {
      assert (a + b)[0] == a[0];
      assert (a + b)[1..] == a[1..] + b;
      RemoveNoteKeepsOrder(a[1..], b, id);
    }
  }

  /** Position `k` holds the first note with the given id. */
  ghost predicate IsFirstMatch(notes: seq<Note>, id: string, k: int) {
    0 <= k < |notes| && notes[k].id == id && forall j :: 0 <= j < k ==> notes[j].id != id
  }

  /** `findIndex` on the id: the first position holding it, or -1 when none does. */
  function FindIndex(notes: seq<Note>, id: string): (i: int)
    ensures -1 <= i < |notes|
    ensures i == -1 <==> forall k :: 0 <= k < |notes| ==> notes[k].id != id
    ensures i != -1 ==> IsFirstMatch(notes, id, i)
  {
    if notes == [] then -1
    else if notes[0].id == id then 0
    else
      var j := FindIndex(notes[1..], id);
      if j == -1 then -1 else j + 1
  }

  /**
   * The visibility-toggle updater: the note at the first position holding the id gets
   * the new flag and nothing else changes; with no such note the list is returned as it was.
   */
  function SetPublic(notes: seq<Note>, id: string, newStatus: bool): (r: seq<Note>)
    ensures |r| == |notes|
    ensures forall k :: 0 <= k < |notes| ==>
              r[k] == if k == FindIndex(notes, id) then notes[k].(public := newStatus) else notes[k]
    ensures FindIndex(notes, id) == -1 ==> r == notes
  {
    var i := FindIndex(notes, id);
    if i == -1 then notes
    else notes[..i] + [notes[i].(public := newStatus)] + notes[i + 1..]
  }

  /** `findIndex` looks only at the ids: two lists with the same ids at the same positions agree. */
  lemma {:induction false} FindIndexSameIds(a: seq<Note>, b: seq<Note>, id: string)
    requires |a| == |b|
    requires forall k :: 0 <= k < |a| ==> a[k].id == b[k].id
    ensures FindIndex(a, id) == FindIndex(b, id)
  {
    if a != [] {
      FindIndexSameIds(a[1..], b[1..], id);
    }
  }

  /** Setting the flag back to the value it had undoes a toggle. */
  lemma SetPublicRestores(notes: seq<Note>, id: string, newStatus: bool)
    requires FindIndex(notes, id) != -1
    ensures SetPublic(SetPublic(notes, id, newStatus), id, notes[FindIndex(notes, id)].public) == notes
  {
    var once := SetPublic(notes, id, newStatus);
    FindIndexSameIds(once, notes, id);
  }

  // ---------------------------------------------------------------------------
  // Card text

  /** A node of the editor's serialized document; `children` and `text` may be missing. */
  datatype LexicalNode = LexicalNode(nodeType: string, children: Option<seq<LexicalNode>>, text: Option<string>)

  datatype LexicalRoot = LexicalRoot(children: Option<seq<LexicalNode>>)

  /**
   * What parsing the stored content as JSON gives: a failure, the JSON value `null`
   * (reading a field of it throws), or an object whose `root` may be missing.
   */
  datatype ParsedContent = ParseError | ParsedNull | ParsedDocument(root: Option<LexicalRoot>)

  const NoContent: string := "No content yet..."
  const InvalidContent: string := "Invalid content"
  const UntitledNote: string := "Untitled Note"
  const PreviewLength: nat := 500
  const Ellipsis: string := "..."

  /** `node.text`, where a missing text joins as "". */
  function Texts(nodes: seq<LexicalNode>): (r: seq<string>)
    ensures |r| == |nodes|
    ensures forall k :: 0 <= k < |nodes| ==> r[k] == nodes[k].text.GetOr("")
  {
    if nodes == [] then [] else [nodes[0].text.GetOr("")] + Texts(nodes[1..])
  }

  /**
   * The text of one top-level block: its children's texts joined by spaces, so one space
   * at least between any two children; "" without children, and a lone child's own text.
   */
  function BlockText(block: LexicalNode): (r: string)
    ensures block.children.None? ==> r == ""
    ensures block.children.Some? ==> |r| >= |block.children.value| - 1
    ensures block.children.Some? && |block.children.value| == 1 ==> r == block.children.value[0].text.GetOr("")
  {
    match block.children
    case None => ""
    case Some(cs) => JsText.Join(Texts(cs), " ")
  }

  function BlockTexts(blocks: seq<LexicalNode>): (r: seq<string>)
    ensures |r| == |blocks|
    ensures forall k :: 0 <= k < |blocks| ==> r[k] == BlockText(blocks[k])
  {
    if blocks == [] then [] else [BlockText(blocks[0])] + BlockTexts(blocks[1..])
  }

  lemma {:induction false} BlockTextsAppend(a: seq<LexicalNode>, b: seq<LexicalNode>)
    ensures BlockTexts(a + b) == BlockTexts(a) + BlockTexts(b)
  {
    if a == [] {
      assert a + b == b;
    } else {
      assert (a + b)[1..] == a[1..] + b;
      BlockTextsAppend(a[1..], b);
    }
  }

  /** `json.root?.children || []`: the root's blocks, or none when the root or its children are missing. */
  function RootBlocks(root: Option<LexicalRoot>): (r: seq<LexicalNode>)
    ensures root.Some? && root.value.children.Some? ==> r == root.value.children.value
    ensures root.None? || root.value.children.None? ==> r == []
  {
    match root
    case None => []
    case Some(r) => r.children.GetOr([])
  }

  /**
   * The extracted text: the top-level blocks' texts joined by spaces, so "" without
   * blocks, a lone block's own text, and one space at least between any two blocks.
   */
  function ExtractText(root: Option<LexicalRoot>): (r: string)
    ensures RootBlocks(root) == [] ==> r == ""
    ensures |RootBlocks(root)| == 1 ==> r == BlockText(RootBlocks(root)[0])
    ensures |r| >= |RootBlocks(root)| - 1
  {
    JsText.Join(BlockTexts(RootBlocks(root)), " ")
  }

  /** The plain-text rendering of stored content, with its two fallbacks. */
  function PlainText(parsed: ParsedContent): (r: string)
    ensures r != ""
    ensures !parsed.ParsedDocument? ==> r == InvalidContent
    ensures parsed.ParsedDocument? && ExtractText(parsed.root) == "" ==> r == NoContent
    ensures parsed.ParsedDocument? && ExtractText(parsed.root) != "" ==> r == ExtractText(parsed.root)
  {
    match parsed
    case ParseError => InvalidContent
    case ParsedNull => InvalidContent
    case ParsedDocument(root) =>
      var plainText := ExtractText(root);
      if plainText == "" then NoContent else plainText
  }

  /** A block adds nothing to the text when it has no children or a single one without text. */
  predicate BlankBlock(block: LexicalNode) {
    match block.children
    case None => true
    case Some(cs) => |cs| == 0 || (|cs| == 1 && cs[0].text.GetOr("") == "")
  }

  /**
   * The placeholder is shown exactly when the document has no top-level block or a
   * single blank one; two blank blocks already join to a space.
   */
  lemma ExtractTextEmpty(root: Option<LexicalRoot>)
    ensures ExtractText(root) == "" <==>
            |RootBlocks(root)| == 0 || (|RootBlocks(root)| == 1 && BlankBlock(RootBlocks(root)[0]))
  {
    var blocks := RootBlocks(root);
    JsText.JoinEmpty(BlockTexts(blocks), " ");
    if |blocks| == 1 {
      match blocks[0].children
      case None =>
      case Some(cs) => JsText.JoinEmpty(Texts(cs), " ");
    }
  }

  /** Text from the earlier blocks comes first: a document split in two extracts as its halves joined by a space. */
  lemma ExtractTextInOrder(a: seq<LexicalNode>, b: seq<LexicalNode>)
    requires |a| >= 1 && |b| >= 1
    ensures ExtractText(Some(LexicalRoot(Some(a + b))))
            == ExtractText(Some(LexicalRoot(Some(a)))) + " " + ExtractText(Some(LexicalRoot(Some(b))))
  {
    BlockTextsAppend(a, b);
    JsText.JoinAppend(BlockTexts(a), BlockTexts(b), " ");
  }

  /**
   * The preview on a card: the placeholder for empty content, otherwise at most 500
   * characters of the plain text followed by "...".
   */
  function CardPreview(content: string, parsed: ParsedContent): (r: string)
    ensures content == "" ==> r == NoContent
    ensures content != "" ==>
              var body := PlainText(parsed);
              && |r| <= PreviewLength + |Ellipsis|
              && |r| == (if |body| <= PreviewLength then |body| else PreviewLength) + |Ellipsis|
              && r[..|r| - |Ellipsis|] == body[..|r| - |Ellipsis|]
              && r[|r| - |Ellipsis|..] == Ellipsis
  {
    if content == "" then NoContent
    else JsText.Slice(PlainText(parsed), PreviewLength) + Ellipsis
  }

  /** The heading on a card: the title, or "Untitled Note" when it is empty. */
  function CardTitle(title: string): (r: string)
    ensures r != ""
    ensures title != "" ==> r == title
    ensures title == "" ==> r == UntitledNote
  {
    if title == "" then UntitledNote else title
  }

  // ---------------------------------------------------------------------------
  // Page state

  /** A call the page makes to the note API. */
  datatype Request = ListNotes | DeleteNote(id: string) | UpdatePublic(id: string, public: bool)

  /** The page's `notes` and `loading` state, with the log of the API calls it made. */
  class NotesList {
    var notes: seq<Note>
    var loading: bool
    var requests: seq<Request>

    constructor ()
      ensures notes == [] && loading && requests == []
    {
      notes := [];
      loading := true;
      requests := [];
    }

    /** The initial fetch: the list becomes what the API returned; on failure it is unchanged. */
    method Load(fetched: Option<seq<Note>>)
      modifies this
      ensures requests == old(requests) + [ListNotes]
      ensures notes == if fetched.Some? then fetched.value else old(notes)
      ensures !loading
    {
      requests := requests + [ListNotes];
      if fetched.Some? {
        notes := fetched.value;
      }
      loading := false;
    }

    /**
     * Delete after confirmation: the API call is made only when the user confirmed,
     * and the list loses the note only when the call succeeded.
     */
    method HandleDeleteNote(id: string, confirmed: bool, deleteSucceeded: bool)
      modifies this
      ensures requests == if confirmed then old(requests) + [DeleteNote(id)] else old(requests)
      ensures notes == if confirmed && deleteSucceeded then RemoveNote(old(notes), id) else old(notes)
      ensures loading == old(loading)
    {
      if !confirmed {
        return;
      }
      requests := requests + [DeleteNote(id)];
      if deleteSucceeded {
        notes := RemoveNote(notes, id);
      }
    }

    /**
     * Toggle visibility: the API is asked for the negation of the flag the card showed,
     * and the list is updated only after that call succeeded.
     */
    method HandleTogglePrivacy(id: string, isPublic: bool, updateSucceeded: bool)
      modifies this
      ensures requests == old(requests) + [UpdatePublic(id, !isPublic)]
      ensures notes == if updateSucceeded then SetPublic(old(notes), id, !isPublic) else old(notes)
      ensures loading == old(loading)
    {
      var newStatus := !isPublic;
      requests := requests + [UpdatePublic(id, newStatus)];
      if updateSucceeded {
        notes := SetPublic(notes, id, newStatus);
      }
    }
  }
}
