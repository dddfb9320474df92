/**
 * The records the store holds and the effect of each store operation on a
 * table, as pure functions over maps from ids to records. The Store class
 * applies these to its fields.
 */
module Records {
  import opened Wrappers
  import opened ObjectIds

  /** A registered user; `password` holds the digest, never the plain text. */
  datatype User = User(username: string, password: string, fullname: Option<string>)

  /** A folder; the handlers create folders without an owner. */
  datatype Folder = Folder(name: string, userId: Option<Oid>, createdAt: int, updatedAt: int)

  /** A note; `folderId` and `tags` are weak references to folders and tags. */
  datatype Note = Note(
    title: Option<string>,
    content: Option<string>,
    folderId: Option<Oid>,
    tags: seq<Oid>,
    userId: Option<Oid>,
    createdAt: int,
    updatedAt: int)

  /** Why the store refused a write: a unique index (code 11000), a schema rule, or a cast. */
  datatype StoreError = DuplicateKey | ValidationFailed(path: string) | CastFailed(path: string)

  /** The outcome of a find-by-id-and-update: no such record, refused, or the new table. */
  datatype Updated<T> = Missing | Refused(error: StoreError) | Changed(table: map<Oid, T>, record: T)

  // ---------------------------------------------------------------- users

  predicate UsernameTaken(users: map<Oid, User>, username: string)
  {
    exists k :: k in users && users[k].username == username
  }

  /** The unique index on `username`. */
  predicate UsernamesUnique(users: map<Oid, User>)
  {
    forall a, b :: a in users && b in users && a != b ==> users[a].username != users[b].username
  }

  /** `User.create`: refused with a duplicate key when the id or the username is in use. */
  function AddUser(users: map<Oid, User>, id: Oid, u: User): (r: Result<map<Oid, User>, StoreError>)
    ensures r.Success? <==> id !in users && !UsernameTaken(users, u.username)
    ensures r.Failure? ==> r.error == DuplicateKey
    ensures r.Success? ==> r.value.Keys == users.Keys + {id} && r.value[id] == u
    ensures r.Success? ==> forall k :: k in users ==> r.value[k] == users[k]
    ensures UsernamesUnique(users) && r.Success? ==> UsernamesUnique(r.value)
  {
    if id in users || UsernameTaken(users, u.username) then Failure(DuplicateKey)
    else Success(users[id := u])
  }

  // ---------------------------------------------------------------- folders

  predicate FolderKeyInUse(folders: map<Oid, Folder>, name: string, userId: Option<Oid>)
  {
    exists k :: k in folders && folders[k].name == name && folders[k].userId == userId
  }

  /** The unique index on (name, userId); an absent owner compares equal to an absent owner. */
  predicate FolderKeysUnique(folders: map<Oid, Folder>)
  {
    forall a, b :: a in folders && b in folders && a != b ==>
      folders[a].name != folders[b].name || folders[a].userId != folders[b].userId
  }

  /** `Folder.create`: refused with a duplicate key when the id or the (name, userId) pair is in use. */
  function AddFolder(folders: map<Oid, Folder>, id: Oid, f: Folder): (r: Result<map<Oid, Folder>, StoreError>)
    ensures r.Success? <==> id !in folders && !FolderKeyInUse(folders, f.name, f.userId)
    ensures r.Failure? ==> r.error == DuplicateKey
    ensures r.Success? ==> r.value.Keys == folders.Keys + {id} && r.value[id] == f
    ensures r.Success? ==> forall k :: k in folders ==> r.value[k] == folders[k]
    ensures FolderKeysUnique(folders) && r.Success? ==> FolderKeysUnique(r.value)
  {
    if id in folders || FolderKeyInUse(folders, f.name, f.userId) then Failure(DuplicateKey)
    else Success(folders[id := f])
  }

  /** `findByIdAndUpdate(id, {$set: {name}})` on folders: only the name (and the update time) change. */
  function RenameFolder(folders: map<Oid, Folder>, id: Oid, name: string, now: int): (r: Updated<Folder>)
    ensures r.Missing? <==> id !in folders
    ensures r.Refused? <==> id in folders && FolderKeyInUse(folders - {id}, name, folders[id].userId)
    ensures r.Refused? ==> r.error == DuplicateKey
    ensures r.Changed? ==> r.table.Keys == folders.Keys && r.record == r.table[id]
    ensures r.Changed? ==> (r.record.name == name && r.record.updatedAt == now
      && r.record.userId == folders[id].userId && r.record.createdAt == folders[id].createdAt)
    ensures r.Changed? ==> forall k :: k in folders && k != id ==> r.table[k] == folders[k]
    ensures FolderKeysUnique(folders) && r.Changed? ==> FolderKeysUnique(r.table)
  {
    if id !in folders then Missing
    else if FolderKeyInUse(folders - {id}, name, folders[id].userId) then Refused(DuplicateKey)
    else
      var f := folders[id].(name := name, updatedAt := now);
      assert forall k :: k in folders && k != id ==> k in folders - {id};
      Changed(folders[id := f], f)
  }

  // ---------------------------------------------------------------- notes

  /** `Note.create`: the note model adds no index beyond the id. */
  function AddNote(notes: map<Oid, Note>, id: Oid, n: Note): (r: Result<map<Oid, Note>, StoreError>)
    ensures r.Success? <==> id !in notes
    ensures r.Failure? ==> r.error == DuplicateKey
    ensures r.Success? ==> r.value.Keys == notes.Keys + {id} && r.value[id] == n
    ensures r.Success? ==> forall k :: k in notes ==> r.value[k] == notes[k]
  {
    if id in notes then Failure(DuplicateKey) else Success(notes[id := n])
  }

  /** The query `{_id: id, userId: owner}` matches. */
  predicate OwnedBy(notes: map<Oid, Note>, id: Oid, owner: Oid)
  {
    id in notes && notes[id].userId == Some(owner)
  }

  /** `deleteOne({_id: id, userId: owner})`: removes that note if the owner matches, nothing else. */
  function RemoveOwned(notes: map<Oid, Note>, id: Oid, owner: Oid): (r: map<Oid, Note>)
    ensures r.Keys == if OwnedBy(notes, id, owner) then notes.Keys - {id} else notes.Keys
    ensures forall k :: k in r ==> r[k] == notes[k]
  {
    if OwnedBy(notes, id, owner) then notes - {id} else notes
  }

  /** The fields a note update sets; `None` leaves the field alone. */
  datatype NotePatch = NotePatch(
    title: Option<Option<string>>,
    content: Option<Option<string>>,
    folderId: Option<Option<Oid>>,
    tags: Option<seq<Oid>>)

  /** A `$set` of the patch's fields on one note. */
  function PatchNote(n: Note, p: NotePatch, now: int): (r: Note)
    ensures r.title == (if p.title.Some? then p.title.value else n.title)
    ensures r.content == (if p.content.Some? then p.content.value else n.content)
    ensures r.folderId == (if p.folderId.Some? then p.folderId.value else n.folderId)
    ensures r.tags == (if p.tags.Some? then p.tags.value else n.tags)
    ensures r.userId == n.userId && r.createdAt == n.createdAt && r.updatedAt == now
  {
    n.(title := if p.title.Some? then p.title.value else n.title,
       content := if p.content.Some? then p.content.value else n.content,
       folderId := if p.folderId.Some? then p.folderId.value else n.folderId,
       tags := if p.tags.Some? then p.tags.value else n.tags,
       updatedAt := now)
  }

  /** Two updates sent one after the other, as one: a field the later one sets wins. */
  function ThenPatch(p: NotePatch, q: NotePatch): NotePatch
  {
    NotePatch(
      if q.title.Some? then q.title else p.title,
      if q.content.Some? then q.content else p.content,
      if q.folderId.Some? then q.folderId else p.folderId,
      if q.tags.Some? then q.tags else p.tags)
  }

  /** An update that sets no field changes only the update time. */
  lemma EmptyPatchOnlyStamps(n: Note, now: int)
    ensures PatchNote(n, NotePatch(None, None, None, None), now) == n.(updatedAt := now)
  {
  }

  /** Applying the same update twice at the same time is applying it once. */
  lemma PatchIdempotent(n: Note, p: NotePatch, now: int)
    ensures PatchNote(PatchNote(n, p, now), p, now) == PatchNote(n, p, now)
  {
  }

  /** Two updates in a row are the merged update stamped with the later time. */
  lemma PatchesCompose(n: Note, p: NotePatch, q: NotePatch, t1: int, t2: int)
    ensures PatchNote(PatchNote(n, p, t1), q, t2) == PatchNote(n, ThenPatch(p, q), t2)
  {
  }

  /** `findByIdAndUpdate(id, patch)` on notes: looked up by id alone. */
  function UpdateNoteById(notes: map<Oid, Note>, id: Oid, p: NotePatch, now: int): (r: Updated<Note>)
    ensures r.Missing? <==> id !in notes
    ensures !r.Refused?
    ensures r.Changed? ==> (r.table.Keys == notes.Keys && r.record == r.table[id]
      && r.record == PatchNote(notes[id], p, now))
    ensures r.Changed? ==> forall k :: k in notes && k != id ==> r.table[k] == notes[k]
  {
    if id !in notes then Missing
    else
      var n := PatchNote(notes[id], p, now);
      Changed(notes[id := n], n)
  }

  /**
   * `Note.updateMany({folderId: fid}, {$unset: {folderId: 1}})`: afterwards no
   * note refers to the folder; a note that did loses only that reference and
   * is stamped with the update time, and every other note is as it was.
   */
  function UnlinkFolder(notes: map<Oid, Note>, fid: Oid, now: int): (r: map<Oid, Note>)
    ensures r.Keys == notes.Keys
    ensures forall k :: k in r ==> r[k].folderId != Some(fid)
    ensures forall k :: k in r ==> r[k].(folderId := notes[k].folderId, updatedAt := notes[k].updatedAt) == notes[k]
    ensures forall k :: k in r && notes[k].folderId == Some(fid) ==> r[k].folderId.None? && r[k].updatedAt == now
    ensures forall k :: k in r && notes[k].folderId != Some(fid) ==> r[k] == notes[k]
  {
    map k | k in notes :: if notes[k].folderId == Some(fid) then notes[k].(folderId := None, updatedAt := now) else notes[k]
  }

  /** `$pull`: every occurrence of `t` removed, every other element kept in order. */
  function Without(s: seq<Oid>, t: Oid): (r: seq<Oid>)
    ensures t !in r
    ensures forall x :: x in r <==> x in s && x != t
    ensures forall x :: x != t ==> multiset(r)[x] == multiset(s)[x]
    ensures t !in s ==> r == s
  {
    if s == [] then []
    else if s[0] == t then
      assert s == [s[0]] + s[1..];
      Without(s[1..], t)
    else
      assert s == [s[0]] + s[1..];
      [s[0]] + Without(s[1..], t)
  }

  /** `$pull` on a single id: the id itself goes, any other id stays. */
  lemma WithoutSingle(x: Oid, t: Oid)
    ensures Without([x], t) == if x == t then [] else [x]
  {
    assert [x][1..] == [];
  }

  /** `$pull` works piecewise: pulling from a concatenation pulls from each part, keeping the order. */
  lemma {:induction false} WithoutConcat(a: seq<Oid>, b: seq<Oid>, t: Oid)
    ensures Without(a + b, t) == Without(a, t) + Without(b, t)
  {
    if a == [] {
      assert a + b == b;
    } else {
      var ab := a + b;
      assert ab[0] == a[0] && ab[1..] == a[1..] + b;
      var head := if a[0] == t then [] else [a[0]];
      assert Without(ab, t) == head + Without(a[1..] + b, t);
      assert Without(a, t) == head + Without(a[1..], t);
      WithoutConcat(a[1..], b, t);
      assert head + (Without(a[1..], t) + Without(b, t)) == (head + Without(a[1..], t)) + Without(b, t);
    }
  }

  /**
   * `Note.updateMany({$pull: {tags: tid}})`, whose only argument is the update
   * and so applies to every note: the tag id leaves every note's tag list,
   * every note is stamped with the update time, and nothing else changes.
   */
  function PullTag(notes: map<Oid, Note>, tid: Oid, now: int): (r: map<Oid, Note>)
    ensures r.Keys == notes.Keys
    ensures forall k :: k in r ==> tid !in r[k].tags && r[k].updatedAt == now
    ensures forall k :: k in r ==> r[k].(tags := notes[k].tags, updatedAt := notes[k].updatedAt) == notes[k]
    ensures forall k, x :: k in r && x != tid ==> multiset(r[k].tags)[x] == multiset(notes[k].tags)[x]
    ensures forall k :: k in r ==> r[k].tags == Without(notes[k].tags, tid)
  {
    map k | k in notes :: notes[k].(tags := Without(notes[k].tags, tid), updatedAt := now)
  }

  // ---------------------------------------------------------------- reference integrity

  /** Every folder a note names exists. */
  predicate FolderRefsResolve(notes: map<Oid, Note>, folders: map<Oid, Folder>)
  {
    forall k :: k in notes && notes[k].folderId.Some? ==> notes[k].folderId.value in folders
  }

  /** Deleting a folder the cascaded way leaves no dangling folder reference behind. */
  lemma UnlinkThenRemoveKeepsFolderRefs(notes: map<Oid, Note>, folders: map<Oid, Folder>, fid: Oid, now: int)
    requires FolderRefsResolve(notes, folders)
    ensures FolderRefsResolve(UnlinkFolder(notes, fid, now), folders - {fid})
  {
    var r := UnlinkFolder(notes, fid, now);
    forall k | k in r && r[k].folderId.Some?
      ensures r[k].folderId.value in folders - {fid}
    {
      assert r[k].folderId == notes[k].folderId;
    }
  }

  /** Removing a folder without the unlink step can leave a dangling reference. */
  lemma RemoveAloneLeavesDangling(fid: Oid, nid: Oid, n: Note, f: Folder)
    requires n.folderId == Some(fid)
    ensures FolderRefsResolve(map[nid := n], map[fid := f])
    ensures !FolderRefsResolve(map[nid := n], map[fid := f] - {fid})
  {
    assert nid in map[nid := n];
  }
}
