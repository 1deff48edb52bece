# Teacher appraisal front end: record screens and navigation, in Dafny

This project models the three pieces of logic in the teacher-appraisal web
front end that hold state or make a decision. Rendering and the hosted
document database are stripped away.

- **Navigation bar** (`Sidebar`, `sidebar.dfy`). The signed-in user's role
  picks one of two fixed, ordered link lists. An administrator gets Dashboard
  and Manage Teachers. Everyone else, and a missing user, gets Dashboard,
  Syllabus, Classes and Documents.
- **Teacher manager** (`Teachers`, `teachers.dfy`). This is the
  administrator's screen. The class `TeacherManager` holds the local teacher
  list, the draft of the inline form, the id being edited, the form's
  visibility and the error message. It also holds the remote "teachers"
  collection as a map from id to record. Each handler is a method. The list
  transforms the handlers use (`ApplyEdit`, `RemoveById`,
  `TeachersFromSnapshot`) are functions, with lemmas about them.
- **Document manager** (`Documents`, `documents.dfy`). This is a teacher's
  screen. The class `DocumentManager` holds the document list, the modal's
  form, edit mode, the modal's visibility and the resolved teacher id. It
  also holds the remote "documents" collection. Payload construction and the
  collection after a save (`SavedStore`) are functions.
- `Common` (`common.dfy`) has the shared pieces: `Option`, the store-call
  outcome `Reply`, the signed-in `User`, JavaScript string truthiness, and
  `ListsAll` (a listing that names every id of a collection exactly once).

How the store is modelled:

- Every store call takes its outcome as a parameter: `Ok(value)` or `Fail`.
  `addDoc` returns the new id in `Ok`. A fetch returns in `Ok` the order in
  which the store lists its ids.
- An add's precondition is that the returned id is one the collection does
  not hold yet, since `addDoc` always creates a new document. So an add never
  overwrites a stored record.
- A fetch's precondition is the store's listing contract: the order names
  every id of the collection exactly once.
- An update of an id the collection does not hold fails whatever the reply,
  as the database rejects updates of missing documents.
- A delete of a missing id succeeds.
- "Today" and "now" are opaque string parameters.

Points where the code's behaviour is easy to misread:

- The "Add Teacher" button (`HandleAddClick`) shows the form and clears the
  edited id. It does not empty the draft.
- The submit guard tests `editTeacherId` for truthiness, so an empty-string
  id takes the add path. That path does not clear `editTeacherId`; only the
  edit path sets it to null. After any successful submit, the form is
  therefore out of edit mode (`!Truthy(editTeacherId)`). It is not
  necessarily null.
- A role is any string. Only the exact string "admin" selects the admin
  links.
- On a failed store call, the teacher screen leaves its list exactly as it
  was. The local append and patch happen only after the store call succeeds.
- A document created before the teacher id resolves is stored with a null
  owner, so `teacherId` is `Option<string>` in both the stored record and the
  listed document.
- The signed-in user can change while the document screen is mounted
  (`UserChanged`). The lookup then re-runs, but nothing resets `teacherId`.
  If the new user has no teacher document, the previous user's id stays. So
  the invariant promises only that `teacherId` is a non-empty id whose
  teacher document some lookup found.
- Failures on the document screen are only logged. Its fetch after a save or
  delete is not filtered by owner.

`type` is a reserved word in Dafny, so the document's type field is called
`docType`.

## Model

| member | source | states |
|---|---|---|
| `Sidebar.IsAdmin` | INFOVIT/project_Frontend/src/components/Sidebar.tsx:27 | false without a user, false for any role other than "admin", true for a user whose role is exactly "admin" |
| `Sidebar.Links` | INFOVIT/project_Frontend/src/components/Sidebar.tsx:27 | the admin list is chosen exactly when a user is present and their role is "admin"; otherwise the teacher list is chosen |
| `Sidebar.Paths` | INFOVIT/project_Frontend/src/components/Sidebar.tsx:39-42 | the routes (the list's keys) are the links' `to`, position by position |
| `Sidebar.LinkSetRoutes` | INFOVIT/project_Frontend/src/components/Sidebar.tsx:15-25 | the teacher list is /dashboard, /syllabus, /classes, /documents in that order; the admin list is /dashboard, /teachers |
| `Sidebar.FallbackIsTeacher` | INFOVIT/project_Frontend/src/components/Sidebar.tsx:27 | no user, or any role other than "admin", yields the teacher routes; there is no fallback to the admin list |
| `Sidebar.LinksShape` | INFOVIT/project_Frontend/src/components/Sidebar.tsx:15-27 | for every user the first link is /dashboard, /teachers is offered exactly to an admin, and no route repeats within a list |
| `Teachers.Complete` | INFOVIT/project_Frontend/src/pages/admin/TeacherManager.tsx:62 | the submit guard passes exactly when none of name, email and department is the empty string |
| `Teachers.AsTeacher` | INFOVIT/project_Frontend/src/pages/admin/TeacherManager.tsx:37-40 | the entry carries the document's id and drops only the password: the stored record is the entry's fields plus that password |
| `Teachers.NewRecord` | INFOVIT/project_Frontend/src/pages/admin/TeacherManager.tsx:88-94 | the added document carries the draft's name, email and department, today as join date, and the password "webcap" |
| `Teachers.Updated` | INFOVIT/project_Frontend/src/pages/admin/TeacherManager.tsx:72-76 | an update sets name, email and department from the draft; join date and password are kept |
| `Teachers.TeachersFromSnapshot` | INFOVIT/project_Frontend/src/pages/admin/TeacherManager.tsx:34-42 | the fetched list has one entry per listed id, in listing order, with that id and the stored fields (no password) |
| `Teachers.ApplyEdit` | INFOVIT/project_Frontend/src/pages/admin/TeacherManager.tsx:78-84 | length and order are kept; entries carrying the id get the draft's name, email and department and keep their join date; all other entries are unchanged |
| `Teachers.RemoveById` | INFOVIT/project_Frontend/src/pages/admin/TeacherManager.tsx:128 | an entry survives exactly when it was in the list and does not carry the id |
| `Teachers.RemoveByIdAppend` | INFOVIT/project_Frontend/src/pages/admin/TeacherManager.tsx:128 | filtering a concatenation is the concatenation of the filtered parts, so survivors keep their relative order |
| `Teachers.RemoveByIdAbsent` | INFOVIT/project_Frontend/src/pages/admin/TeacherManager.tsx:128 | a list where no entry carries the id is returned unchanged |
| `Teachers.RemoveByIdCount` | INFOVIT/project_Frontend/src/pages/admin/TeacherManager.tsx:128 | no entry with the id remains, and every other entry keeps its multiplicity |
| `Teachers.RemoveByIdKeepsIdsDistinct` | INFOVIT/project_Frontend/src/pages/admin/TeacherManager.tsx:128 | filtering a list whose ids are pairwise distinct leaves them pairwise distinct |
| `Teachers.FetchedTeachersMirrorStore` | INFOVIT/project_Frontend/src/pages/admin/TeacherManager.tsx:32-42 | after a complete listing, the list holds every stored teacher exactly once, as stored, and nothing else |
| `Teachers.SnapshotCount` | INFOVIT/project_Frontend/src/pages/admin/TeacherManager.tsx:36-41 | with distinct listed ids, an entry occurs once if its id is listed and it matches the stored record, and otherwise not at all |
| `Teachers.FetchTwiceSameEntries` | INFOVIT/project_Frontend/src/pages/admin/TeacherManager.tsx:32-42 | two fetches of an unchanged collection give the same entries with the same multiplicities; only their order may differ |
| `Teachers.TeacherManager.constructor` | INFOVIT/project_Frontend/src/pages/admin/TeacherManager.tsx:15-23 | initial state: empty list, empty draft, no edited id, hidden form, no error |
| `Teachers.TeacherManager.FetchTeachers` | INFOVIT/project_Frontend/src/pages/admin/TeacherManager.tsx:32-48 | success replaces the list wholesale with the listing; failure keeps the list and sets the fetch error; nothing else changes |
| `Teachers.TeacherManager.HandleInputChange` | INFOVIT/project_Frontend/src/pages/admin/TeacherManager.tsx:51-54 | only the named draft field is set |
| `Teachers.TeacherManager.HandleSelectChange` | INFOVIT/project_Frontend/src/pages/admin/TeacherManager.tsx:56-58 | only the draft's department is set |
| `Teachers.TeacherManager.HandleAddTeacher` | INFOVIT/project_Frontend/src/pages/admin/TeacherManager.tsx:60-113 | an incomplete draft sets the message and changes nothing else, including the store. A successful update patches the store record and the matching list entries; a successful add stores the record and appends exactly one entry. Both reset and hide the form. A failed call sets the error and changes nothing else. An error once set never becomes empty. An added id is new to the store, so no earlier entry carries it, and the invariant that every listed id is stored and listed once is kept |
| `Teachers.TeacherManager.HandleEditTeacher` | INFOVIT/project_Frontend/src/pages/admin/TeacherManager.tsx:115-123 | the draft becomes the teacher's name, email and department, the edited id becomes the teacher's id, and the form is shown |
| `Teachers.TeacherManager.HandleAddClick` | INFOVIT/project_Frontend/src/pages/admin/TeacherManager.tsx:141-144 | the form is shown and the edited id is null; the draft is kept |
| `Teachers.TeacherManager.HandleCancel` | INFOVIT/project_Frontend/src/pages/admin/TeacherManager.tsx:205 | the form is hidden and nothing else changes |
| `Teachers.TeacherManager.HandleDeleteTeacher` | INFOVIT/project_Frontend/src/pages/admin/TeacherManager.tsx:125-133 | success removes the id from the store and filters it from the list; failure keeps both and sets the delete error; the list's ids stay stored and distinct |
| `Documents.BlankForm` | INFOVIT/project_Frontend/src/pages/teacher/DocumentManager.tsx:85-93 | the blank form has empty id, teacher id "1", type "notes", empty title, description and url, and upload date now |
| `Documents.UpdatePayload` | INFOVIT/project_Frontend/src/pages/teacher/DocumentManager.tsx:104-110 | an update writes the form's title, description, type and url with upload date now, and no owner |
| `Documents.CreatePayload` | INFOVIT/project_Frontend/src/pages/teacher/DocumentManager.tsx:113-120 | a new document's owner is the resolved teacher id (not the form's), and its upload date is now |
| `Documents.Patched` | INFOVIT/project_Frontend/src/pages/teacher/DocumentManager.tsx:103-110 | merging an update keeps the stored owner and takes every payload field |
| `Documents.AsDocument` | INFOVIT/project_Frontend/src/pages/teacher/DocumentManager.tsx:60-63 | the entry carries the document's id, and its other fields are exactly the stored record |
| `Documents.DocumentsFromSnapshot` | INFOVIT/project_Frontend/src/pages/teacher/DocumentManager.tsx:58-64 | the fetched list has one entry per listed id, in listing order, with that id and the stored fields |
| `Documents.SavedStore` | INFOVIT/project_Frontend/src/pages/teacher/DocumentManager.tsx:99-122 | a save succeeds exactly when the call does and, in edit mode, the target exists. An edit changes only the target's record and keeps the key set; a create keeps every existing record and adds the new record under the returned id, which the store did not hold |
| `Documents.SaveKeepsOwnerAndType` | INFOVIT/project_Frontend/src/pages/teacher/DocumentManager.tsx:101-121 | a saved record is stamped now. An edit keeps the owner and the type the document was opened with; a create is owned by the resolved id and has type "notes". Every other record is unchanged |
| `Documents.FetchedDocumentsMirrorStore` | INFOVIT/project_Frontend/src/pages/teacher/DocumentManager.tsx:56-64 | after a complete listing, the list holds every stored document of every owner exactly once, as stored |
| `Documents.DocumentManager.constructor` | INFOVIT/project_Frontend/src/pages/teacher/DocumentManager.tsx:11-23 | initial state: no documents, closed modal, create mode, no teacher id, blank form stamped at mount |
| `Documents.DocumentManager.FetchTeacherId` | INFOVIT/project_Frontend/src/pages/teacher/DocumentManager.tsx:31-49 | the teacher id is set to the user's id only when that id is non-empty and the lookup finds the teacher document, and that id is recorded as confirmed; otherwise nothing changes |
| `Documents.DocumentManager.UserChanged` | INFOVIT/project_Frontend/src/pages/teacher/DocumentManager.tsx:26-28 | a change of user re-runs the lookup: the teacher id becomes the new user's id when the lookup finds it, and otherwise keeps its old value; nothing else changes |
| `Documents.DocumentManager.FetchDocuments` | INFOVIT/project_Frontend/src/pages/teacher/DocumentManager.tsx:56-68 | success replaces the list wholesale with the whole collection, not filtered by owner; failure keeps it; nothing else changes |
| `Documents.DocumentManager.LoadWhenResolved` | INFOVIT/project_Frontend/src/pages/teacher/DocumentManager.tsx:52-54 | documents are fetched only when the teacher id is resolved; otherwise nothing changes |
| `Documents.DocumentManager.OpenModal` | INFOVIT/project_Frontend/src/pages/teacher/DocumentManager.tsx:71-96 | with a document: edit mode on and the form a copy of all seven fields. Without one: edit mode off and the blank form stamped now. The modal opens |
| `Documents.DocumentManager.EditField` | INFOVIT/project_Frontend/src/pages/teacher/DocumentManager.tsx:196-215 | only the title, description or url of the form is set, so the invariant tying the form's id, owner and type, and in edit mode the upload date, to the opening is kept |
| `Documents.DocumentManager.CloseModal` | INFOVIT/project_Frontend/src/pages/teacher/DocumentManager.tsx:218 | the modal closes and nothing else changes |
| `Documents.DocumentManager.SaveDocument` | INFOVIT/project_Frontend/src/pages/teacher/DocumentManager.tsx:99-128 | on success the store becomes `SavedStore`, the list is replaced by the refresh's listing, and the modal closes; on failure the store, the list and the modal are unchanged |
| `Documents.DocumentManager.DeleteDocument` | INFOVIT/project_Frontend/src/pages/teacher/DocumentManager.tsx:131-139 | on success the id leaves the store and the list is replaced by the refresh's listing; on failure nothing changes |

## Left out

- The database client (`getDocs`, `getDoc`, `addDoc`, `updateDoc`, `deleteDoc`) is a foreign library. Each call is an outcome parameter on an abstract map store.
- Asynchrony is not modelled. Each handler is one sequential step. The un-awaited refresh after a save or delete is treated as finishing within the same step. Overlapping handlers, and updates that arrive after unmount, are not captured.
- The effect on mount that calls `fetchTeacherId` only for a truthy user id is merged into `FetchTeacherId`, which makes the same test itself.
- Clock reads and date formatting (`new Date()`, `toLocaleDateString`, `toISOString`) are opaque string parameters.
- Rendering is not modelled: markup, styling, icons, the router's active-link styling, the way the teacher screen shows the error only while the form is visible, and the logout action. The session store behind logout is not part of this model.
- Console logging is not modelled.
- Writes to the collections by other sessions are not modelled. Each screen's store changes only through its own handlers, and the teacher screen's invariant (every listed id is stored, and no id is listed twice) relies on that.
- The department select restricts choices in the browser only. The submit guard checks only that fields are non-empty, so no membership invariant over `Departments` is stated.
- A fetched teacher object also carries the stored password at run time, because the spread copies every field. Nothing reads that field, so the listed `Teacher` omits it.
- The shared `Document` type declaration is not part of this model. Its fields are taken from the form state that the document screen builds.
