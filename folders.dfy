/**
 * The folder handlers of routes/folders.js. Folders are not scoped to the
 * caller: every handler sees the whole folder table.
 */
module Folders {
  import opened Wrappers
  import opened Json
  import opened ObjectIds
  import opened Records
  import opened Casting
  import opened Listing
  import opened Store
  import opened Http

  const InvalidId := BadRequest("Invalid id")
  const MissingName := BadRequest("Missing `name` in request body")
  const DuplicateMessage := "The folder name already exists"

  /** GET /api/folders: every folder, in ascending name order. */
  method ListFolders(store: Store) returns (reply: Reply)
    ensures reply.Json? && reply.status == 200 && reply.location.None? && reply.payload.FolderRows?
    ensures reply.Json? && reply.payload.FolderRows? ==>
      (Selects(reply.payload.folders, store.folders, (f: Folder) => true)
       && DistinctIds(reply.payload.folders) && SortedBy(reply.payload.folders, FolderNameOrder))
  {
    var rows := store.FoldersByName();
    reply := Json(200, None, FolderRows(rows));
  }

  /** GET /api/folders/:id: the folder with that id, or not found. */
  method GetFolder(store: Store, id: string) returns (reply: Reply)
    ensures !IsValidId(id) ==> reply == Next(InvalidId)
    ensures IsValidId(id) && ToOid(id) in store.folders
      ==> reply == Json(200, None, FolderJson(ToOid(id), store.folders[ToOid(id)]))
    ensures IsValidId(id) && ToOid(id) !in store.folders ==> reply == NextRoute
  {
    if !IsValidId(id) {
      return Next(InvalidId);
    }
    var found := store.FindFolder(ToOid(id));
    if found.Some? {
      reply := Json(200, None, FolderJson(ToOid(id), found.value));
    } else {
      reply := NextRoute;
    }
  }

  /**
   * POST /api/folders. The folder is created from the name alone, with no
   * owner. `newId` stands for the id the store assigns and `now` for the
   * clock; the Location header is built as `http://` + the request URL.
   */
  method CreateFolder(store: Store, body: Body, originalUrl: string, newId: Oid, now: int) returns (reply: Reply)
    requires store.Valid()
    modifies store
    ensures store.Valid()
    ensures store.users == old(store.users) && store.notes == old(store.notes) && store.tags == old(store.tags)
    ensures !TruthyField(body, "name") ==> reply == Next(MissingName) && store.folders == old(store.folders)
    ensures TruthyField(body, "name") && CastName(body["name"], "name").Failure?
      ==> reply == Next(StoreFailure(CastFailed("name"))) && store.folders == old(store.folders)
    ensures TruthyField(body, "name") && CastName(body["name"], "name").Success?
      && (newId in old(store.folders) || FolderKeyInUse(old(store.folders), CastName(body["name"], "name").value, None))
      ==> reply == Next(BadRequest(DuplicateMessage)) && store.folders == old(store.folders)
    ensures TruthyField(body, "name") && CastName(body["name"], "name").Success?
      && newId !in old(store.folders) && !FolderKeyInUse(old(store.folders), CastName(body["name"], "name").value, None)
      ==> (var f := Folder(CastName(body["name"], "name").value, None, now, now);
           store.folders == old(store.folders)[newId := f]
           && reply == Json(201, Some("http://" + originalUrl + "/" + newId), FolderJson(newId, f)))
  {
    if !TruthyField(body, "name") {
      return Next(MissingName);
    }
    var name := CastName(body["name"], "name");
    if name.Failure? {
      return Next(TranslateDuplicate(name.error, DuplicateMessage));
    }
    var folder := Folder(name.value, None, now, now);
    var err := store.CreateFolder(newId, folder);
    if err.Some? {
      return Next(TranslateDuplicate(err.value, DuplicateMessage));
    }
    reply := Json(201, Some("http://" + originalUrl + "/" + newId), FolderJson(newId, folder));
  }

  /** PUT /api/folders/:id: the id is checked before the name; only the name (and update time) changes. */
  method UpdateFolder(store: Store, id: string, body: Body, now: int) returns (reply: Reply)
    requires store.Valid()
    modifies store
    ensures store.Valid()
    ensures store.users == old(store.users) && store.notes == old(store.notes) && store.tags == old(store.tags)
    ensures !IsValidId(id) ==> reply == Next(InvalidId) && store.folders == old(store.folders)
    ensures IsValidId(id) && !TruthyField(body, "name") ==> reply == Next(MissingName) && store.folders == old(store.folders)
    ensures IsValidId(id) && TruthyField(body, "name") && CastName(body["name"], "name").Failure?
      ==> reply == Next(StoreFailure(CastFailed("name"))) && store.folders == old(store.folders)
    ensures IsValidId(id) && TruthyField(body, "name") && CastName(body["name"], "name").Success? ==>
      (var r := Records.RenameFolder(old(store.folders), ToOid(id), CastName(body["name"], "name").value, now);
       && (r.Missing? ==> reply == NextRoute && store.folders == old(store.folders))
       && (r.Refused? ==> reply == Next(BadRequest(DuplicateMessage)) && store.folders == old(store.folders))
       && (r.Changed? ==> reply == Json(200, None, FolderJson(ToOid(id), r.record)) && store.folders == r.table))
  {
    if !IsValidId(id) {
      return Next(InvalidId);
    }
    if !TruthyField(body, "name") {
      return Next(MissingName);
    }
    var name := CastName(body["name"], "name");
    if name.Failure? {
      return Next(TranslateDuplicate(name.error, DuplicateMessage));
    }
    var r := store.RenameFolder(ToOid(id), name.value, now);
    match r
    case Missing => reply := NextRoute;
    case Refused(e) => reply := Next(TranslateDuplicate(e, DuplicateMessage));
    case Changed(_, folder) => reply := Json(200, None, FolderJson(ToOid(id), folder));
  }

  /**
   * DELETE /api/folders/:id: first every note in the folder loses its
   * `folderId`, then the folder is removed; the reply is 204 whether or not
   * the folder existed. The unlinked notes are stamped with `now`. A store
   * whose folder references resolved still does.
   */
  method DeleteFolder(store: Store, id: string, now: int) returns (reply: Reply)
    requires store.Valid()
    modifies store
    ensures store.Valid()
    ensures store.users == old(store.users) && store.tags == old(store.tags)
    ensures !IsValidId(id) ==> reply == Next(InvalidId) && store.notes == old(store.notes) && store.folders == old(store.folders)
    ensures IsValidId(id) ==> reply == SendStatus(204)
    ensures IsValidId(id) ==> store.notes == UnlinkFolder(old(store.notes), ToOid(id), now)
    ensures IsValidId(id) ==> store.folders == old(store.folders) - {ToOid(id)}
    ensures FolderRefsResolve(old(store.notes), old(store.folders)) ==> FolderRefsResolve(store.notes, store.folders)
  {
    if !IsValidId(id) {
      return Next(InvalidId);
    }
    var fid := ToOid(id);
    if FolderRefsResolve(store.notes, store.folders) {
      UnlinkThenRemoveKeepsFolderRefs(store.notes, store.folders, fid, now);
    }
    store.UnsetFolder(fid, now);
    store.RemoveFolder(fid);
    reply := SendStatus(204);
  }
}
