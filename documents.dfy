/** A teacher's document screen: the teacher id resolved from the signed-in
    user, the local list of documents refreshed wholesale from the remote
    "documents" collection, and a modal form for adding or editing one
    document. Payloads and the snapshot are functions; the screen's state is
    the class DocumentManager. */
module Documents {
  import opened Common

  /** A document as the screen holds it. `teacherId` is null when it was
      created before the teacher id was resolved. */
  datatype Document = Document(
    id: string,
    teacherId: Option<string>,
    title: string,
    docType: string,
    uploadDate: string,
    description: string,
    url: string)

  /** A document of the remote "documents" collection (its id is the key). */
  datatype DocRecord = DocRecord(
    teacherId: Option<string>,
    title: string,
    description: string,
    docType: string,
    uploadDate: string,
    url: string)

  /** The fields an update writes; the owner is not among them. */
  datatype Patch = Patch(title: string, description: string, docType: string, uploadDate: string, url: string)

  /** The three inputs of the modal. */
  datatype FormField = TitleField | DescriptionField | UrlField

  const DefaultType := "notes"
  const PlaceholderTeacherId := "1"

  /** The form `openModal()` starts from, stamped with the time of opening. */
  function BlankForm(now: string): (form: Document)
    ensures form.id == "" && form.teacherId == Some(PlaceholderTeacherId) && form.docType == DefaultType
    ensures form.title == "" && form.description == "" && form.url == "" && form.uploadDate == now
  {
    Document("", Some(PlaceholderTeacherId), "", DefaultType, now, "", "")
  }

  /** What a form opened with `origin` (a document, or none for a new one)
      agrees on with its opening, however the three inputs were edited since:
      everything but title, description and url. */
  predicate FormFits(form: Document, origin: Option<Document>) {
    match origin
    case Some(d) =>
      form.id == d.id && form.teacherId == d.teacherId && form.docType == d.docType && form.uploadDate == d.uploadDate
    case None =>
      form.id == "" && form.teacherId == Some(PlaceholderTeacherId) && form.docType == DefaultType
  }

  /** The payload of an edit-mode save. */
  function UpdatePayload(form: Document, now: string): (p: Patch)
    ensures p.uploadDate == now
    ensures p.title == form.title && p.description == form.description && p.docType == form.docType && p.url == form.url
  {
    Patch(form.title, form.description, form.docType, now, form.url)
  }

  /** The payload of a create-mode save: the owner is the resolved teacher id,
      whatever the form holds, and the upload date is the time of saving. */
  function CreatePayload(teacherId: Option<string>, form: Document, now: string): (rec: DocRecord)
    ensures rec.teacherId == teacherId && rec.uploadDate == now
    ensures rec.title == form.title && rec.description == form.description && rec.docType == form.docType && rec.url == form.url
  {
    DocRecord(teacherId, form.title, form.description, form.docType, now, form.url)
  }

  /** A stored document after an update merges the payload into it. */
  function Patched(rec: DocRecord, p: Patch): (r: DocRecord)
    ensures r.teacherId == rec.teacherId
    ensures r == DocRecord(rec.teacherId, p.title, p.description, p.docType, p.uploadDate, p.url)
  {
    rec.(title := p.title, description := p.description, docType := p.docType, uploadDate := p.uploadDate, url := p.url)
  }

  /** The list entry a fetched document becomes: its id and its data.
      Nothing is lost: the stored record can be rebuilt from the entry. */
  function AsDocument(id: string, rec: DocRecord): (d: Document)
    ensures d.id == id
    ensures DocRecord(d.teacherId, d.title, d.description, d.docType, d.uploadDate, d.url) == rec
  {
    Document(id, rec.teacherId, rec.title, rec.docType, rec.uploadDate, rec.description, rec.url)
  }

  /** The fetched list: one entry per identifier of `order`, in that order. */
  function DocumentsFromSnapshot(store: map<string, DocRecord>, order: seq<string>): (r: seq<Document>)
    requires forall i :: 0 <= i < |order| ==> order[i] in store
    ensures |r| == |order|
    ensures forall i :: 0 <= i < |order| ==> r[i] == AsDocument(order[i], store[order[i]])
  {
    if order == [] then [] else [AsDocument(order[0], store[order[0]])] + DocumentsFromSnapshot(store, order[1..])
  }

  /** The collection after the store call of `saveDocument`, or None when the
      call fails. An update of an identifier the store does not hold fails; an
      add returns a new identifier, one the store does not hold yet. */
  function SavedStore(store: map<string, DocRecord>, editMode: bool, form: Document,
                      teacherId: Option<string>, now: string, write: Reply<string>): (r: Option<map<string, DocRecord>>)
    requires !editMode && write.Ok? ==> write.value !in store
    ensures r.Some? <==> write.Ok? && (editMode ==> form.id in store)
    ensures r.Some? && editMode ==>
      && r.value.Keys == store.Keys
      && (forall id :: id in store && id != form.id ==> r.value[id] == store[id])
      && r.value[form.id] == Patched(store[form.id], UpdatePayload(form, now))
    ensures r.Some? && !editMode ==>
      && r.value.Keys == store.Keys + {write.value}
      && (forall id :: id in store ==> r.value[id] == store[id])
      && r.value[write.value] == CreatePayload(teacherId, form, now)
  {
    if write.Fail? then None
    else if editMode then
      if form.id in store then Some(store[form.id := Patched(store[form.id], UpdatePayload(form, now))]) else None
    else Some(store[write.value := CreatePayload(teacherId, form, now)])
  }

  /** A save never changes who owns an existing document, stamps the saved
      document with the time of saving, and writes either the default type
      (a new document) or the type the edited document was opened with. */
  lemma SaveKeepsOwnerAndType(store: map<string, DocRecord>, editMode: bool, form: Document, origin: Option<Document>,
                              teacherId: Option<string>, now: string, write: Reply<string>)
    requires editMode == origin.Some? && FormFits(form, origin)
    requires !editMode && write.Ok? ==> write.value !in store
    requires SavedStore(store, editMode, form, teacherId, now, write).Some?
    ensures var r := SavedStore(store, editMode, form, teacherId, now, write).value;
      var key := if editMode then form.id else write.value;
      && key in r && r[key].uploadDate == now
      && (editMode ==> r[key].teacherId == store[key].teacherId && r[key].docType == origin.value.docType)
      && (!editMode ==> r[key].teacherId == teacherId && r[key].docType == DefaultType)
      && (forall id :: id in store && id != key ==> id in r && r[id] == store[id])
  {
  }

  /** A fetch of a complete listing holds every document of the collection,
      whoever owns it, once and as stored. */
  lemma FetchedDocumentsMirrorStore(store: map<string, DocRecord>, order: seq<string>)
    requires ListsAll(order, store)
    ensures var r := DocumentsFromSnapshot(store, order);
      && (forall i :: 0 <= i < |r| ==> r[i].id in store && r[i] == AsDocument(r[i].id, store[r[i].id]))
      && (forall i, j :: 0 <= i < j < |r| ==> r[i].id != r[j].id)
      && (forall id :: id in store ==> exists i :: 0 <= i < |r| && r[i].id == id)
  {
  }

  /** The screen's state (its `useState` hooks), the signed-in user, and the
      remote collection it talks to. */
  class DocumentManager {
    /** The signed-in user, as the session store currently holds it. */
    var user: Option<User>
    var documents: seq<Document>
    var isModalOpen: bool
    var formData: Document
    var isEditMode: bool
    var teacherId: Option<string>
    /** The remote "documents" collection. */
    var remote: map<string, DocRecord>
    /** The document the modal was last opened with (None: opened blank). */
    ghost var openedWith: Option<Document>
    /** The ids whose teacher document a lookup has found. */
    ghost var confirmed: set<string>

    /** The teacher id, once resolved, is a non-empty user id whose teacher
        document a lookup found (after a change of user it may still be the
        previous user's: nothing resets it); edit mode means the modal was
        opened with a document; the form agrees with its opening everywhere
        but the three editable inputs. */
    ghost predicate Valid()
      reads this
    {
      && (teacherId.Some? ==> teacherId.value != "" && teacherId.value in confirmed)
      && isEditMode == openedWith.Some?
      && FormFits(formData, openedWith)
    }

    /** The screen as first rendered, `now` being the time of mounting. */
    constructor (user: Option<User>, remote: map<string, DocRecord>, now: string)
      ensures Valid()
      ensures this.user == user && this.remote == remote
      ensures documents == [] && !isModalOpen && !isEditMode && teacherId == None
      ensures formData == BlankForm(now) && confirmed == {}
    {
      this.user := user;
      this.remote := remote;
      documents := [];
      isModalOpen := false;
      formData := BlankForm(now);
      isEditMode := false;
      teacherId := None;
      openedWith := None;
      confirmed := {};
    }

    /** `fetchTeacherId`: with a signed-in user whose id is non-empty, looks up
        the teacher document with that id; `lookup` says whether it exists.
        Only a successful lookup of an existing document sets the teacher id;
        every other outcome is logged and changes nothing. */
    method FetchTeacherId(lookup: Reply<bool>)
      requires Valid()
      modifies this
      ensures Valid()
      ensures teacherId == if user.Some? && user.value.id != "" && lookup == Ok(true)
                           then Some(user.value.id) else old(teacherId)
      ensures confirmed == if user.Some? && user.value.id != "" && lookup == Ok(true)
                           then old(confirmed) + {user.value.id} else old(confirmed)
      ensures documents == old(documents) && isModalOpen == old(isModalOpen) && formData == old(formData)
      ensures isEditMode == old(isEditMode) && remote == old(remote) && openedWith == old(openedWith)
      ensures user == old(user)
    {
      if user.None? || user.value.id == "" {
        return;
      }
      if lookup == Ok(true) {
        teacherId := Some(user.value.id);
        confirmed := confirmed + {user.value.id};
      }
    }

    /** The session store switches to another user (or to none): the effect
        keyed on the user id re-runs the lookup. Nothing clears the teacher
        id, so when the new user has no teacher document the previous
        user's id stays. */
    method UserChanged(newUser: Option<User>, lookup: Reply<bool>)
      requires Valid()
      modifies this
      ensures Valid()
      ensures user == newUser
      ensures teacherId == if newUser.Some? && newUser.value.id != "" && lookup == Ok(true)
                           then Some(newUser.value.id) else old(teacherId)
      ensures documents == old(documents) && isModalOpen == old(isModalOpen) && formData == old(formData)
      ensures isEditMode == old(isEditMode) && remote == old(remote) && openedWith == old(openedWith)
    {
      user := newUser;
      FetchTeacherId(lookup);
    }

    /** `fetchDocuments`: replaces the list wholesale with the whole
        collection as the store lists it, not filtered by owner; a failure is
        logged and keeps the list. */
    method FetchDocuments(listing: Reply<seq<string>>)
      requires Valid()
      requires listing.Ok? ==> ListsAll(listing.value, remote)
      modifies this
      ensures Valid()
      ensures documents == if listing.Ok? then DocumentsFromSnapshot(old(remote), listing.value) else old(documents)
      ensures isModalOpen == old(isModalOpen) && formData == old(formData) && isEditMode == old(isEditMode)
      ensures teacherId == old(teacherId) && remote == old(remote) && openedWith == old(openedWith)
      ensures user == old(user) && confirmed == old(confirmed)
    {
      if listing.Ok? {
        documents := DocumentsFromSnapshot(remote, listing.value);
      }
    }

    /** The effect that runs when the teacher id changes: documents are
        fetched only once the teacher id is resolved. */
    method LoadWhenResolved(listing: Reply<seq<string>>)
      requires Valid()
      requires listing.Ok? ==> ListsAll(listing.value, remote)
      modifies this
      ensures Valid()
      ensures documents == if Truthy(teacherId) && listing.Ok? then DocumentsFromSnapshot(old(remote), listing.value)
                           else old(documents)
      ensures isModalOpen == old(isModalOpen) && formData == old(formData) && isEditMode == old(isEditMode)
      ensures teacherId == old(teacherId) && remote == old(remote) && openedWith == old(openedWith)
      ensures user == old(user) && confirmed == old(confirmed)
    {
      if Truthy(teacherId) {
        FetchDocuments(listing);
      }
    }

    /** `openModal(doc)`: with a document, edit mode and a copy of all its
        fields; without one, create mode and the blank form stamped `now`.
        Either way the modal opens. */
    method OpenModal(doc: Option<Document>, now: string)
      requires Valid()
      modifies this
      ensures Valid()
      ensures isModalOpen && isEditMode == doc.Some?
      ensures formData == if doc.Some? then doc.value else BlankForm(now)
      ensures openedWith == doc && user == old(user) && confirmed == old(confirmed)
      ensures documents == old(documents) && teacherId == old(teacherId) && remote == old(remote)
    {
      if doc.Some? {
        isEditMode := true;
        formData := doc.value;
      } else {
        isEditMode := false;
        formData := BlankForm(now);
      }
      openedWith := doc;
      isModalOpen := true;
    }

    /** The title, description and url inputs: each sets its own field. */
    method EditField(field: FormField, value: string)
      requires Valid()
      modifies this
      ensures Valid()
      ensures formData == match field
                          case TitleField => old(formData).(title := value)
                          case DescriptionField => old(formData).(description := value)
                          case UrlField => old(formData).(url := value)
      ensures documents == old(documents) && isModalOpen == old(isModalOpen) && isEditMode == old(isEditMode)
      ensures teacherId == old(teacherId) && remote == old(remote) && openedWith == old(openedWith)
      ensures user == old(user) && confirmed == old(confirmed)
    {
      match field
      case TitleField => formData := formData.(title := value);
      case DescriptionField => formData := formData.(description := value);
      case UrlField => formData := formData.(url := value);
    }

    /** The "Cancel" button: closes the modal and keeps the form. */
    method CloseModal()
      requires Valid()
      modifies this
      ensures Valid()
      ensures !isModalOpen && formData == old(formData) && isEditMode == old(isEditMode)
      ensures documents == old(documents) && teacherId == old(teacherId) && remote == old(remote)
      ensures openedWith == old(openedWith)
      ensures user == old(user) && confirmed == old(confirmed)
    {
      isModalOpen := false;
    }

    /** `saveDocument`: in edit mode updates the document `formData.id`, else
        adds one, under the new id the store returns, owned by the resolved
        teacher id; both stamp `now`. On
        success the list is refreshed from the whole collection (`refresh` is
        that fetch's outcome) and the modal closes; on failure the error is
        only logged and nothing changes. */
    method SaveDocument(now: string, write: Reply<string>, refresh: Reply<seq<string>>)
      requires Valid()
      requires !isEditMode && write.Ok? ==> write.value !in remote
      requires var next := SavedStore(remote, isEditMode, formData, teacherId, now, write);
        next.Some? && refresh.Ok? ==> ListsAll(refresh.value, next.value)
      modifies this
      ensures Valid()
      ensures var next := SavedStore(old(remote), old(isEditMode), old(formData), old(teacherId), now, write);
        if next.Some? then
          && remote == next.value && !isModalOpen
          && documents == if refresh.Ok? then DocumentsFromSnapshot(remote, refresh.value) else old(documents)
        else
          remote == old(remote) && isModalOpen == old(isModalOpen) && documents == old(documents)
      ensures formData == old(formData) && isEditMode == old(isEditMode) && teacherId == old(teacherId)
      ensures openedWith == old(openedWith)
      ensures user == old(user) && confirmed == old(confirmed)
    {
      var next := SavedStore(remote, isEditMode, formData, teacherId, now, write);
      if next.None? {
        return;
      }
      remote := next.value;
      FetchDocuments(refresh);
      isModalOpen := false;
    }

    /** `deleteDocument`: deletes the document (deleting an identifier the
        store does not hold succeeds) and refreshes the list from the whole
        collection; a failure is only logged and changes nothing. */
    method DeleteDocument(id: string, write: Reply<()>, refresh: Reply<seq<string>>)
      requires Valid()
      requires write.Ok? && refresh.Ok? ==> ListsAll(refresh.value, remote - {id})
      modifies this
      ensures Valid()
      ensures write.Ok? ==>
        && remote == old(remote) - {id}
        && documents == if refresh.Ok? then DocumentsFromSnapshot(remote, refresh.value) else old(documents)
      ensures write.Fail? ==> remote == old(remote) && documents == old(documents)
      ensures isModalOpen == old(isModalOpen) && formData == old(formData) && isEditMode == old(isEditMode)
      ensures teacherId == old(teacherId) && openedWith == old(openedWith)
      ensures user == old(user) && confirmed == old(confirmed)
    {
      if write.Fail? {
        return;
      }
      remote := remote - {id};
      FetchDocuments(refresh);
    }
  }

  /** A teacher signs in, the teacher id resolves, and a new document is
      saved: it belongs to the resolved id, not to the form's placeholder, and
      carries the default type and the time of saving. */
  method CreateWithResolvedTeacherScenario()
  {
    var m := new DocumentManager(Some(User("u7", "T", "teacher")), map[], "t0");
    m.FetchTeacherId(Ok(true));
    assert m.teacherId == Some("u7");
    m.OpenModal(None, "t1");
    m.EditField(TitleField, "Week 1");
    m.SaveDocument("t2", Ok("d1"), Ok(["d1"]));
    assert m.remote["d1"] == DocRecord(Some("u7"), "Week 1", "", DefaultType, "t2", "");
    assert !m.isModalOpen && m.documents == [AsDocument("d1", m.remote["d1"])];
  }
}
