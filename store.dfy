/**
 * The document store the handlers talk to, as one object holding a table
 * per collection. Each method is one store call the handlers make; writes
 * apply the table functions of Records and TagModel, and every write keeps
 * the unique indexes intact (`Valid`).
 */
module Store {
  import opened Wrappers
  import opened Text
  import opened ObjectIds
  import opened Records
  import opened TagModel
  import opened Listing

  /** Folders and tags are listed by name, ascending. */
  predicate FolderNameOrder(a: Folder, b: Folder) { LexLe(a.name, b.name) }

  predicate TagNameOrder(a: Tag, b: Tag) { LexLe(a.name, b.name) }

  /** Notes are listed by `updatedAt`, newest first. */
  predicate NoteRecencyOrder(a: Note, b: Note) { a.updatedAt >= b.updatedAt }

  lemma FolderNameOrderIsTotal()
    ensures TotalPreorder(FolderNameOrder)
  {
    forall a: Folder, b: Folder ensures FolderNameOrder(a, b) || FolderNameOrder(b, a) {
      LexLeTotal(a.name, b.name);
    }
    forall a: Folder, b: Folder, c: Folder | FolderNameOrder(a, b) && FolderNameOrder(b, c)
      ensures FolderNameOrder(a, c)
    {
      LexLeTransitive(a.name, b.name, c.name);
    }
  }

  lemma TagNameOrderIsTotal()
    ensures TotalPreorder(TagNameOrder)
  {
    forall a: Tag, b: Tag ensures TagNameOrder(a, b) || TagNameOrder(b, a) {
      LexLeTotal(a.name, b.name);
    }
    forall a: Tag, b: Tag, c: Tag | TagNameOrder(a, b) && TagNameOrder(b, c)
      ensures TagNameOrder(a, c)
    {
      LexLeTransitive(a.name, b.name, c.name);
    }
  }

  /** The note query after the store has cast its ids. */
  datatype NoteCriteria = NoteCriteria(
    title: Option<string>,
    folderId: Option<Oid>,
    tag: Option<Oid>,
    userId: Option<Oid>)

  /**
   * A note satisfies the query: the title pattern matches (a note without a
   * title never does), the folder is the same, the tag list holds the tag,
   * the owner is the same. `titleMatches` stands for the case-insensitive
   * regular expression.
   */
  predicate NoteMatches(c: NoteCriteria, n: Note, titleMatches: (string, string) -> bool)
  {
    (c.title.Some? ==> n.title.Some? && titleMatches(c.title.value, n.title.value))
    && (c.folderId.Some? ==> n.folderId == c.folderId)
    && (c.tag.Some? ==> c.tag.value in n.tags)
    && (c.userId.Some? ==> n.userId == c.userId)
  }

  class Store {
    var users: map<Oid, User>
    var notes: map<Oid, Note>
    var folders: map<Oid, Folder>
    var tags: map<Oid, Tag>

    /** The unique indexes hold. */
    ghost predicate Valid()
      reads this
    {
      UsernamesUnique(users) && FolderKeysUnique(folders) && TagKeysUnique(tags)
    }

    constructor ()
      ensures Valid()
      ensures users == map[] && notes == map[] && folders == map[] && tags == map[]
    {
      users, notes, folders, tags := map[], map[], map[], map[];
    }

    // ------------------------------------------------------------ users

    /** `User.find({username}).count()`. */
    method CountUsername(username: string) returns (n: nat)
      ensures n > 0 <==> UsernameTaken(users, username)
    {
      var found := set k | k in users && users[k].username == username;
      if UsernameTaken(users, username) {
        var k :| k in users && users[k].username == username;
        assert k in found;
      }
      n := |found|;
    }

    /** `User.create`. */
    method CreateUser(id: Oid, u: User) returns (err: Option<StoreError>)
      requires Valid()
      modifies this
      ensures Valid()
      ensures AddUser(old(users), id, u).Success? ==> err.None? && users == AddUser(old(users), id, u).value
      ensures AddUser(old(users), id, u).Failure? ==> err == Some(DuplicateKey) && users == old(users)
      ensures notes == old(notes) && folders == old(folders) && tags == old(tags)
    {
      var r := AddUser(users, id, u);
      if r.Success? { users := r.value; err := None; } else { err := Some(r.error); }
    }

    // ------------------------------------------------------------ notes

    /** `Note.create`. */
    method CreateNote(id: Oid, n: Note) returns (err: Option<StoreError>)
      requires Valid()
      modifies this
      ensures Valid()
      ensures id !in old(notes) ==> err.None? && notes == old(notes)[id := n]
      ensures id in old(notes) ==> err == Some(DuplicateKey) && notes == old(notes)
      ensures users == old(users) && folders == old(folders) && tags == old(tags)
    {
      var r := AddNote(notes, id, n);
      if r.Success? { notes := r.value; err := None; } else { err := Some(r.error); }
    }

    /** `Note.findOne({_id: id, userId: owner})`. */
    method FindOwnedNote(id: Oid, owner: Oid) returns (r: Option<Note>)
      ensures r.Some? <==> OwnedBy(notes, id, owner)
      ensures r.Some? ==> r.value == notes[id]
    {
      if id in notes && notes[id].userId == Some(owner) { r := Some(notes[id]); } else { r := None; }
    }

    /** `Note.find(criteria).sort({updatedAt: 'desc'})`. */
    method FindNotes(c: NoteCriteria, titleMatches: (string, string) -> bool) returns (rows: seq<(Oid, Note)>)
      ensures Selects(rows, notes, n => NoteMatches(c, n, titleMatches))
      ensures DistinctIds(rows) && SortedBy(rows, NoteRecencyOrder)
    {
      rows := SelectSorted(notes, n => NoteMatches(c, n, titleMatches), NoteRecencyOrder);
    }

    /** `Note.findByIdAndUpdate(id, patch, {new: true})`: the updated note, or none when the id is unknown. */
    method UpdateNote(id: Oid, p: NotePatch, now: int) returns (r: Option<Note>)
      requires Valid()
      modifies this
      ensures Valid()
      ensures id !in old(notes) ==> r.None? && notes == old(notes)
      ensures id in old(notes) ==> r == Some(PatchNote(old(notes)[id], p, now)) && notes == old(notes)[id := r.value]
      ensures users == old(users) && folders == old(folders) && tags == old(tags)
    {
      var u := UpdateNoteById(notes, id, p, now);
      if u.Changed? { notes := u.table; r := Some(u.record); } else { r := None; }
    }

    /** `Note.deleteOne({_id: id, userId: owner})`: the number of notes removed. */
    method DeleteOwnedNote(id: Oid, owner: Oid) returns (n: nat)
      requires Valid()
      modifies this
      ensures Valid()
      ensures n == (if OwnedBy(old(notes), id, owner) then 1 else 0)
      ensures notes == RemoveOwned(old(notes), id, owner)
      ensures users == old(users) && folders == old(folders) && tags == old(tags)
    {
      n := if OwnedBy(notes, id, owner) then 1 else 0;
      notes := RemoveOwned(notes, id, owner);
    }

    // ------------------------------------------------------------ folders

    /** `Folder.find().sort({name: 'asc'})`. */
    method FoldersByName() returns (rows: seq<(Oid, Folder)>)
      ensures Selects(rows, folders, (f: Folder) => true)
      ensures DistinctIds(rows) && SortedBy(rows, FolderNameOrder)
    {
      FolderNameOrderIsTotal();
      rows := SelectSorted(folders, (f: Folder) => true, FolderNameOrder);
    }

    /** `Folder.findById(id)`. */
    method FindFolder(id: Oid) returns (r: Option<Folder>)
      ensures r.Some? <==> id in folders
      ensures r.Some? ==> r.value == folders[id]
    {
      r := if id in folders then Some(folders[id]) else None;
    }

    /** `Folder.create`. */
    method CreateFolder(id: Oid, f: Folder) returns (err: Option<StoreError>)
      requires Valid()
      modifies this
      ensures Valid()
      ensures AddFolder(old(folders), id, f).Success? ==> err.None? && folders == AddFolder(old(folders), id, f).value
      ensures AddFolder(old(folders), id, f).Failure? ==> err == Some(DuplicateKey) && folders == old(folders)
      ensures users == old(users) && notes == old(notes) && tags == old(tags)
    {
      var r := AddFolder(folders, id, f);
      if r.Success? { folders := r.value; err := None; } else { err := Some(r.error); }
    }

    /** `Folder.findByIdAndUpdate(id, {$set: {name}}, {new: true})`. */
    method RenameFolder(id: Oid, name: string, now: int) returns (r: Updated<Folder>)
      requires Valid()
      modifies this
      ensures Valid()
      ensures r == Records.RenameFolder(old(folders), id, name, now)
      ensures folders == (if r.Changed? then r.table else old(folders))
      ensures users == old(users) && notes == old(notes) && tags == old(tags)
    {
      r := Records.RenameFolder(folders, id, name, now);
      if r.Changed? { folders := r.table; }
    }

    /** `Note.updateMany({folderId: fid}, {$unset: {folderId: 1}})`. */
    method UnsetFolder(fid: Oid, now: int)
      requires Valid()
      modifies this
      ensures Valid()
      ensures notes == UnlinkFolder(old(notes), fid, now)
      ensures users == old(users) && folders == old(folders) && tags == old(tags)
    {
      notes := UnlinkFolder(notes, fid, now);
    }

    /** `Folder.findByIdAndRemove(fid)`: nothing happens when there is no such folder. */
    method RemoveFolder(fid: Oid)
      requires Valid()
      modifies this
      ensures Valid()
      ensures folders == old(folders) - {fid}
      ensures users == old(users) && notes == old(notes) && tags == old(tags)
    {
      folders := folders - {fid};
    }

    // ------------------------------------------------------------ tags

    /** `Tag.find().sort({name: 'asc'})`. */
    method TagsByName() returns (rows: seq<(Oid, Tag)>)
      ensures Selects(rows, tags, (t: Tag) => true)
      ensures DistinctIds(rows) && SortedBy(rows, TagNameOrder)
    {
      TagNameOrderIsTotal();
      rows := SelectSorted(tags, (t: Tag) => true, TagNameOrder);
    }

    /** `Tag.findById(id)`. */
    method FindTag(id: Oid) returns (r: Option<Tag>)
      ensures r.Some? <==> id in tags
      ensures r.Some? ==> r.value == tags[id]
    {
      r := if id in tags then Some(tags[id]) else None;
    }

    /** `Tag.create`: schema validation, then the indexes. */
    method CreateTag(id: Oid, d: TagDraft, now: int) returns (err: Option<StoreError>)
      requires Valid()
      modifies this
      ensures Valid()
      ensures AddTag(old(tags), id, d, now).Success? ==> err.None? && tags == AddTag(old(tags), id, d, now).value
      ensures AddTag(old(tags), id, d, now).Failure? ==> err == Some(AddTag(old(tags), id, d, now).error) && tags == old(tags)
      ensures users == old(users) && notes == old(notes) && folders == old(folders)
    {
      var r := AddTag(tags, id, d, now);
      if r.Success? { tags := r.value; err := None; } else { err := Some(r.error); }
    }

    /** `Tag.findByIdAndUpdate(id, {$set: {name}}, {new: true})`. */
    method RenameTag(id: Oid, name: string, now: int) returns (r: Updated<Tag>)
      requires Valid()
      modifies this
      ensures Valid()
      ensures r == TagModel.RenameTag(old(tags), id, name, now)
      ensures tags == (if r.Changed? then r.table else old(tags))
      ensures users == old(users) && notes == old(notes) && folders == old(folders)
    {
      r := TagModel.RenameTag(tags, id, name, now);
      if r.Changed? { tags := r.table; }
    }

    /** `Note.updateMany({$pull: {tags: tid}})`. */
    method PullTagFromNotes(tid: Oid, now: int)
      requires Valid()
      modifies this
      ensures Valid()
      ensures notes == PullTag(old(notes), tid, now)
      ensures users == old(users) && folders == old(folders) && tags == old(tags)
    {
      notes := PullTag(notes, tid, now);
    }

    /** `Tag.findByIdAndRemove(tid)`. */
    method RemoveTag(tid: Oid)
      requires Valid()
      modifies this
      ensures Valid()
      ensures tags == old(tags) - {tid}
      ensures users == old(users) && notes == old(notes) && folders == old(folders)
    {
      tags := tags - {tid};
    }
  }
}
