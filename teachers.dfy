/** The administrator's teacher management screen: a local list of teachers
    mirrored against the remote "teachers" collection, an inline add/edit form
    with its draft, and an error message. The list transforms the handlers
    apply are functions; the screen's state is the class TeacherManager. */
module Teachers {
  import opened Common

  /** A teacher as the screen lists it. */
  datatype Teacher = Teacher(id: string, name: string, email: string, department: string, joinDate: string)

  /** A document of the remote "teachers" collection (its id is the key). */
  datatype TeacherRecord = TeacherRecord(name: string, email: string, department: string, joinDate: string, password: string)

  /** The form's draft (`newTeacher`). */
  datatype Draft = Draft(name: string, email: string, department: string)

  /** The two text inputs of the form, by their `name` attribute. */
  datatype TextInput = NameInput | EmailInput

  const EmptyDraft := Draft("", "", "")

  /** The options of the department select. */
  const Departments: seq<string> := ["CSE", "IT", "MECH", "AIML", "CSBS", "AIDS", "CIVIL", "EEE", "ECE"]

  /** Every account the form creates gets this password. */
  const InitialPassword := "webcap"

  const MissingFieldsError := "Please fill in all fields"
  const FetchError := "Error fetching teacher data."
  const SaveError := "Error saving teacher. Please try again."
  const DeleteError := "Error deleting teacher. Please try again."

  /** Every message the screen can show; none of them is empty. */
  const ErrorMessages: set<string> := {MissingFieldsError, FetchError, SaveError, DeleteError}

  /** The submit guard: name, email and department are all non-empty.
      Membership of the department in Departments is not checked. */
  predicate Complete(d: Draft)
    ensures Complete(d) <==> "" !in [d.name, d.email, d.department]
  {
    d.name != "" && d.email != "" && d.department != ""
  }

  /** The record the add path writes to the store. */
  function NewRecord(d: Draft, today: string): (rec: TeacherRecord)
    ensures rec.password == InitialPassword && rec.joinDate == today
    ensures rec.name == d.name && rec.email == d.email && rec.department == d.department
  {
    TeacherRecord(d.name, d.email, d.department, today, InitialPassword)
  }

  /** The store document after the edit path's update of name, email and department. */
  function Updated(rec: TeacherRecord, d: Draft): (r: TeacherRecord)
    ensures r.joinDate == rec.joinDate && r.password == rec.password
    ensures r.name == d.name && r.email == d.email && r.department == d.department
  {
    rec.(name := d.name, email := d.email, department := d.department)
  }

  /** The list entry a fetched document becomes: its id and its data. Only
      the password is lost: with it, the stored record can be rebuilt. */
  function AsTeacher(id: string, rec: TeacherRecord): (t: Teacher)
    ensures t.id == id
    ensures TeacherRecord(t.name, t.email, t.department, t.joinDate, rec.password) == rec
  {
    Teacher(id, rec.name, rec.email, rec.department, rec.joinDate)
  }

  /** No two entries of the list carry the same id. */
  predicate IdsDistinct(ts: seq<Teacher>) {
    forall i, j :: 0 <= i < j < |ts| ==> ts[i].id != ts[j].id
  }

  /** The fetched list: one entry per identifier of `order`, in that order. */
  function TeachersFromSnapshot(store: map<string, TeacherRecord>, order: seq<string>): (r: seq<Teacher>)
    requires forall i :: 0 <= i < |order| ==> order[i] in store
    ensures |r| == |order|
    ensures forall i :: 0 <= i < |order| ==> r[i] == AsTeacher(order[i], store[order[i]])
  {
    if order == [] then [] else [AsTeacher(order[0], store[order[0]])] + TeachersFromSnapshot(store, order[1..])
  }

  /** The local reflection of an update: every entry carrying `id` takes the
      draft's name, email and department; nothing else changes. */
  function ApplyEdit(ts: seq<Teacher>, id: string, d: Draft): (r: seq<Teacher>)
    ensures |r| == |ts|
    ensures forall i :: 0 <= i < |ts| && ts[i].id != id ==> r[i] == ts[i]
    ensures forall i :: 0 <= i < |ts| && ts[i].id == id ==>
              r[i] == Teacher(id, d.name, d.email, d.department, ts[i].joinDate)
  {
    if ts == [] then []
    else
      var t := if ts[0].id == id then ts[0].(name := d.name, email := d.email, department := d.department) else ts[0];
      [t] + ApplyEdit(ts[1..], id, d)
  }

  /** The local reflection of a delete: the entries not carrying `id`. */
  function RemoveById(ts: seq<Teacher>, id: string): (r: seq<Teacher>)
    ensures |r| <= |ts|
    ensures forall t :: t in r <==> t in ts && t.id != id
  {
    if ts == [] then []
    else (if ts[0].id == id then [] else [ts[0]]) + RemoveById(ts[1..], id)
  }

  /** Removal works piecewise, so the surviving entries keep their order. */
  lemma {:induction false} RemoveByIdAppend(a: seq<Teacher>, b: seq<Teacher>, id: string)
    ensures RemoveById(a + b, id) == RemoveById(a, id) + RemoveById(b, id)
  {
    if a == [] {
      assert a + b == b;
    } else {
      assert (a + b)[1..] == a[1..] + b;
      RemoveByIdAppend(a[1..], b, id);
    }
  }

  /** A list without the identifier is left exactly as it is. */
  lemma {:induction false} RemoveByIdAbsent(ts: seq<Teacher>, id: string)
    requires forall i :: 0 <= i < |ts| ==> ts[i].id != id
    ensures RemoveById(ts, id) == ts
  {
    if ts != [] {
      RemoveByIdAbsent(ts[1..], id);
    }
  }

  /** Filtering keeps the ids of a list distinct. */
  lemma {:induction false} RemoveByIdKeepsIdsDistinct(ts: seq<Teacher>, id: string)
    requires IdsDistinct(ts)
    ensures IdsDistinct(RemoveById(ts, id))
  {
    if ts != [] {
      var rest := RemoveById(ts[1..], id);
      RemoveByIdKeepsIdsDistinct(ts[1..], id);
      forall j | 0 <= j < |rest| ensures rest[j].id != ts[0].id {
        assert rest[j] in ts[1..];
      }
    }
  }

  /** Every other entry survives as often as it occurred. */
  lemma {:induction false} RemoveByIdCount(ts: seq<Teacher>, id: string, t: Teacher)
    ensures multiset(RemoveById(ts, id))[t] == if t.id == id then 0 else multiset(ts)[t]
  {
    if ts != [] {
      RemoveByIdCount(ts[1..], id, t);
      assert ts == [ts[0]] + ts[1..];
      assert multiset(ts) == multiset{ts[0]} + multiset(ts[1..]);
    }
  }

  /** A fetch of a complete listing mirrors the collection: each document
      appears once, as the store holds it, and nothing else appears. */
  lemma FetchedTeachersMirrorStore(store: map<string, TeacherRecord>, order: seq<string>)
    requires ListsAll(order, store)
    ensures var r := TeachersFromSnapshot(store, order);
      && (forall i :: 0 <= i < |r| ==> r[i].id in store && r[i] == AsTeacher(r[i].id, store[r[i].id]))
      && (forall i, j :: 0 <= i < j < |r| ==> r[i].id != r[j].id)
      && (forall id :: id in store ==> exists i :: 0 <= i < |r| && r[i].id == id)
  {
  }

  lemma {:induction false} SnapshotCount(store: map<string, TeacherRecord>, order: seq<string>, t: Teacher)
    requires Distinct(order) && forall i :: 0 <= i < |order| ==> order[i] in store
    ensures multiset(TeachersFromSnapshot(store, order))[t] ==
            if t.id in order && t.id in store && t == AsTeacher(t.id, store[t.id]) then 1 else 0
  {
    if order != [] {
      DistinctTail(order);
      SnapshotCount(store, order[1..], t);
      var r := TeachersFromSnapshot(store, order);
      assert r == [r[0]] + TeachersFromSnapshot(store, order[1..]);
      assert multiset(r) == multiset{r[0]} + multiset(TeachersFromSnapshot(store, order[1..]));
    }
  }

  /** Fetching twice from an unchanged collection gives the same entries,
      each as often; only the order may differ. */
  lemma FetchTwiceSameEntries(store: map<string, TeacherRecord>, o1: seq<string>, o2: seq<string>)
    requires ListsAll(o1, store) && ListsAll(o2, store)
    ensures multiset(TeachersFromSnapshot(store, o1)) == multiset(TeachersFromSnapshot(store, o2))
  {
    forall t ensures multiset(TeachersFromSnapshot(store, o1))[t] == multiset(TeachersFromSnapshot(store, o2))[t] {
      SnapshotCount(store, o1, t);
      SnapshotCount(store, o2, t);
      assert t.id in o1 <==> t.id in o2;
    }
  }

  /** The screen's state (its `useState` hooks) together with the remote
      collection it talks to. */
  class TeacherManager {
    var teachers: seq<Teacher>
    var draft: Draft
    var editTeacherId: Option<string>
    var showForm: bool
    var error: string
    /** The remote "teachers" collection. */
    var remote: map<string, TeacherRecord>

    /** The message shown is either none or one of the screen's messages,
        and the list holds stored teachers only, each id at most once. */
    ghost predicate Valid()
      reads this
    {
      && (error == "" || error in ErrorMessages)
      && (forall i :: 0 <= i < |teachers| ==> teachers[i].id in remote)
      && IdsDistinct(teachers)
    }

    /** The screen as first rendered: empty list, empty hidden form, no error. */
    constructor (remote: map<string, TeacherRecord>)
      ensures Valid()
      ensures teachers == [] && draft == EmptyDraft && editTeacherId == None
      ensures !showForm && error == "" && this.remote == remote
    {
      teachers := [];
      draft := EmptyDraft;
      editTeacherId := None;
      showForm := false;
      error := "";
      this.remote := remote;
    }

    /** `fetchTeachers`, run on mount: replaces the list wholesale with what
        the store lists, or on failure keeps it and sets the error. */
    method FetchTeachers(reply: Reply<seq<string>>)
      requires Valid()
      requires reply.Ok? ==> ListsAll(reply.value, remote)
      modifies this
      ensures Valid()
      ensures draft == old(draft) && editTeacherId == old(editTeacherId)
      ensures showForm == old(showForm) && remote == old(remote)
      ensures reply.Ok? ==> teachers == TeachersFromSnapshot(remote, reply.value) && error == old(error)
      ensures reply.Fail? ==> teachers == old(teachers) && error == FetchError
    {
      match reply
      case Ok(order) =>
        teachers := TeachersFromSnapshot(remote, order);
      case Fail =>
        error := FetchError;
    }

    /** `handleInputChange`: sets the draft field the input is named after. */
    method HandleInputChange(input: TextInput, value: string)
      requires Valid()
      modifies this
      ensures Valid()
      ensures draft == match input
                       case NameInput => old(draft).(name := value)
                       case EmailInput => old(draft).(email := value)
      ensures teachers == old(teachers) && editTeacherId == old(editTeacherId)
      ensures showForm == old(showForm) && error == old(error) && remote == old(remote)
    {
      match input
      case NameInput => draft := draft.(name := value);
      case EmailInput => draft := draft.(email := value);
    }

    /** `handleSelectChange`: sets the draft's department. */
    method HandleSelectChange(value: string)
      requires Valid()
      modifies this
      ensures Valid()
      ensures draft == old(draft).(department := value)
      ensures teachers == old(teachers) && editTeacherId == old(editTeacherId)
      ensures showForm == old(showForm) && error == old(error) && remote == old(remote)
    {
      draft := draft.(department := value);
    }

    /** `handleAddTeacher`, the submit button. An incomplete draft sets the
        error and makes no store call. Otherwise, when `editTeacherId` is
        truthy, the store document is updated (an update of an identifier the
        store does not hold fails) and the list is patched by id; when it is
        not, a document is added under the new id the store returns (one it
        does not hold yet) and the entry with that id appended.
        Success resets and hides the form; a store failure sets the error and
        changes nothing else. */
    method HandleAddTeacher(today: string, reply: Reply<string>)
      requires Valid()
      requires Complete(draft) && !Truthy(editTeacherId) && reply.Ok? ==> reply.value !in remote
      modifies this
      ensures Valid()
      ensures old(error) != "" ==> error != ""
      ensures !Complete(old(draft)) ==>
        && error == MissingFieldsError && remote == old(remote)
        && teachers == old(teachers) && draft == old(draft)
        && editTeacherId == old(editTeacherId) && showForm == old(showForm)
      ensures Complete(old(draft)) && Truthy(old(editTeacherId)) ==>
        var id := old(editTeacherId).value;
        if reply.Ok? && id in old(remote) then
          && remote == old(remote)[id := Updated(old(remote)[id], old(draft))]
          && teachers == ApplyEdit(old(teachers), id, old(draft))
          && draft == EmptyDraft && editTeacherId == None && !showForm && error == old(error)
        else
          && error == SaveError && remote == old(remote)
          && teachers == old(teachers) && draft == old(draft)
          && editTeacherId == old(editTeacherId) && showForm == old(showForm)
      ensures Complete(old(draft)) && !Truthy(old(editTeacherId)) ==>
        if reply.Ok? then
          && remote == old(remote)[reply.value := NewRecord(old(draft), today)]
          && teachers == old(teachers) + [AsTeacher(reply.value, NewRecord(old(draft), today))]
          && reply.value !in old(remote)
          && (forall i :: 0 <= i < |old(teachers)| ==> teachers[i].id != reply.value)
          && draft == EmptyDraft && editTeacherId == old(editTeacherId) && !showForm && error == old(error)
        else
          && error == SaveError && remote == old(remote)
          && teachers == old(teachers) && draft == old(draft)
          && editTeacherId == old(editTeacherId) && showForm == old(showForm)
    {
      if !Complete(draft) {
        error := MissingFieldsError;
        return;
      }
      if Truthy(editTeacherId) {
        var id := editTeacherId.value;
        if reply.Fail? || id !in remote {
          error := SaveError;
          return;
        }
        remote := remote[id := Updated(remote[id], draft)];
        teachers := ApplyEdit(teachers, id, draft);
        editTeacherId := None;
      } else {
        if reply.Fail? {
          error := SaveError;
          return;
        }
        var rec := NewRecord(draft, today);
        remote := remote[reply.value := rec];
        teachers := teachers + [AsTeacher(reply.value, rec)];
      }
      draft := EmptyDraft;
      showForm := false;
    }

    /** `handleEditTeacher`: loads the teacher into the form in edit mode. */
    method HandleEditTeacher(t: Teacher)
      requires Valid()
      modifies this
      ensures Valid()
      ensures draft == Draft(t.name, t.email, t.department)
      ensures editTeacherId == Some(t.id) && showForm
      ensures teachers == old(teachers) && error == old(error) && remote == old(remote)
    {
      draft := Draft(t.name, t.email, t.department);
      editTeacherId := Some(t.id);
      showForm := true;
    }

    /** The "Add Teacher" button: shows the form in add mode; the draft is kept. */
    method HandleAddClick()
      requires Valid()
      modifies this
      ensures Valid()
      ensures showForm && editTeacherId == None
      ensures draft == old(draft) && teachers == old(teachers)
      ensures error == old(error) && remote == old(remote)
    {
      showForm := true;
      editTeacherId := None;
    }

    /** The "Cancel" button: hides the form and keeps everything else. */
    method HandleCancel()
      requires Valid()
      modifies this
      ensures Valid()
      ensures !showForm && editTeacherId == old(editTeacherId) && draft == old(draft)
      ensures teachers == old(teachers) && error == old(error) && remote == old(remote)
    {
      showForm := false;
    }

    /** `handleDeleteTeacher`: deletes the document (deleting an identifier
        the store does not hold succeeds) and filters the list by id; on
        failure the list is kept and the error set. */
    method HandleDeleteTeacher(id: string, reply: Reply<()>)
      requires Valid()
      modifies this
      ensures Valid()
      ensures draft == old(draft) && editTeacherId == old(editTeacherId) && showForm == old(showForm)
      ensures reply.Ok? ==>
        && remote == old(remote) - {id}
        && teachers == RemoveById(old(teachers), id) && error == old(error)
      ensures reply.Fail? ==>
        remote == old(remote) && teachers == old(teachers) && error == DeleteError
    {
      if reply.Fail? {
        error := DeleteError;
        return;
      }
      RemoveByIdKeepsIdsDistinct(teachers, id);
      remote := remote - {id};
      teachers := RemoveById(teachers, id);
    }
  }

  /** Create a teacher, change the department, delete: the record's password
      survives the edit and the list ends empty. */
  method CreateEditDeleteScenario()
  {
    var m := new TeacherManager(map[]);
    m.HandleAddClick();
    m.HandleInputChange(NameInput, "A");
    m.HandleInputChange(EmailInput, "a@x.com");
    m.HandleSelectChange("CSE");
    m.HandleAddTeacher("10/15/2026", Ok("t1"));
    assert m.teachers == [Teacher("t1", "A", "a@x.com", "CSE", "10/15/2026")];
    assert m.remote["t1"].password == InitialPassword;

    m.HandleEditTeacher(m.teachers[0]);
    m.HandleSelectChange("IT");
    m.HandleAddTeacher("10/16/2026", Ok("t1"));
    assert m.teachers == [Teacher("t1", "A", "a@x.com", "IT", "10/15/2026")];
    assert m.remote["t1"].password == InitialPassword;

    m.HandleDeleteTeacher("t1", Ok(()));
    assert m.teachers == [];
  }
}
