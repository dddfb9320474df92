/**
 * The tag handlers of routes/tags.js. Like folders, tags are not scoped to
 * the caller in the handlers. Three handlers are given twice: as the code is
 * written and as it is evidently meant (see README, Findings).
 */
module Tags {
  import opened Wrappers
  import opened Json
  import opened ObjectIds
  import opened Records
  import opened TagModel
  import opened Casting
  import opened Listing
  import opened Store
  import opened Http

  const InvalidId := BadRequest("Invalid Tag id")
  const MissingName := BadRequest("Missing `name` in request body")
  const DuplicateMessage := "The tag name already exists"

  /** Reading the undeclared `err` in the not-found branch throws; the promise chain passes the exception on. */
  const UndeclaredErr := RuntimeError("err is not defined")

  /** Every tag id a note carries names a stored tag. */
  predicate TagRefsResolve(notes: map<Oid, Note>, tags: map<Oid, Tag>)
  {
    forall k, t :: k in notes && t in notes[k].tags ==> t in tags
  }

  /** Deleting a tag the cascaded way leaves no dangling tag reference behind. */
  lemma PullThenRemoveKeepsTagRefs(notes: map<Oid, Note>, tags: map<Oid, Tag>, tid: Oid, now: int)
    requires TagRefsResolve(notes, tags)
    ensures TagRefsResolve(PullTag(notes, tid, now), tags - {tid})
  {
    var r := PullTag(notes, tid, now);
    forall k, t | k in r && t in r[k].tags
      ensures t in tags - {tid}
    {
      assert multiset(r[k].tags)[t] == multiset(notes[k].tags)[t];
      assert t in notes[k].tags;
    }
  }

  /** GET /api/tags: every tag, in ascending name order. */
  method ListTags(store: Store) returns (reply: Reply)
    ensures reply.Json? && reply.status == 200 && reply.location.None? && reply.payload.TagRows?
    ensures reply.Json? && reply.payload.TagRows? ==>
      (Selects(reply.payload.tags, store.tags, (t: Tag) => true)
       && DistinctIds(reply.payload.tags) && SortedBy(reply.payload.tags, TagNameOrder))
  {
    var rows := store.TagsByName();
    reply := Json(200, None, TagRows(rows));
  }

  /** GET /api/tags/:id as written: a valid id with no tag ends in the exception, not in not-found. */
  method GetTagAsWritten(store: Store, id: string) returns (reply: Reply)
    ensures !IsValidId(id) ==> reply == Next(InvalidId)
    ensures IsValidId(id) && ToOid(id) in store.tags
      ==> reply == Json(200, None, TagJson(ToOid(id), store.tags[ToOid(id)]))
    ensures IsValidId(id) && ToOid(id) !in store.tags ==> reply == Next(UndeclaredErr) && reply.err.status.None?
  {
    if !IsValidId(id) {
      return Next(InvalidId);
    }
    var found := store.FindTag(ToOid(id));
    if found.Some? {
      reply := Json(200, None, TagJson(ToOid(id), found.value));
    } else {
      reply := Next(UndeclaredErr);
    }
  }

  /** GET /api/tags/:id as meant: a valid id with no tag is not found, as for folders and notes. */
  method GetTag(store: Store, id: string) returns (reply: Reply)
    ensures !IsValidId(id) ==> reply == Next(InvalidId)
    ensures IsValidId(id) && ToOid(id) in store.tags
      ==> reply == Json(200, None, TagJson(ToOid(id), store.tags[ToOid(id)]))
    ensures IsValidId(id) && ToOid(id) !in store.tags ==> reply == NextRoute
  {
    if !IsValidId(id) {
      return Next(InvalidId);
    }
    var found := store.FindTag(ToOid(id));
    if found.Some? {
      reply := Json(200, None, TagJson(ToOid(id), found.value));
    } else {
      reply := NextRoute;
    }
  }

  /**
   * POST /api/tags as written: the document handed to the store has a name
   * and no `userId`, which the schema requires, so no tag is ever created.
   */
  method CreateTagAsWritten(store: Store, body: Body, originalUrl: string, newId: Oid, now: int) returns (reply: Reply)
    requires store.Valid()
    modifies store
    ensures store.Valid()
    ensures store.users == old(store.users) && store.notes == old(store.notes) && store.folders == old(store.folders)
    ensures store.tags == old(store.tags) && !reply.Json?
    ensures !TruthyField(body, "name") ==> reply == Next(MissingName)
    ensures TruthyField(body, "name") && CastName(body["name"], "name").Failure?
      ==> reply == Next(StoreFailure(CastFailed("name")))
    ensures TruthyField(body, "name") && CastName(body["name"], "name").Success?
      ==> reply == Next(StoreFailure(ValidationFailed("userId")))
  {
    if !TruthyField(body, "name") {
      return Next(MissingName);
    }
    var name := CastName(body["name"], "name");
    if name.Failure? {
      return Next(TranslateDuplicate(name.error, DuplicateMessage));
    }
    // The store refuses the ownerless draft every time, so the handler's
    // success branch, which would answer 201, is never reached.
    OwnerlessTagRefused(store.tags, newId, name.value, now);
    var err := store.CreateTag(newId, TagDraft(Some(name.value), None), now);
    reply := Next(TranslateDuplicate(err.value, DuplicateMessage));
  }

  /**
   * POST /api/tags as meant: the tag is owned by the caller. It is created
   * exactly when the name casts and the caller has no tag of that name.
   */
  method CreateTag(store: Store, body: Body, caller: Oid, originalUrl: string, newId: Oid, now: int) returns (reply: Reply)
    requires store.Valid()
    modifies store
    ensures store.Valid()
    ensures store.users == old(store.users) && store.notes == old(store.notes) && store.folders == old(store.folders)
    ensures !TruthyField(body, "name") ==> reply == Next(MissingName) && store.tags == old(store.tags)
    ensures TruthyField(body, "name") && CastName(body["name"], "name").Failure?
      ==> reply == Next(StoreFailure(CastFailed("name"))) && store.tags == old(store.tags)
    ensures TruthyField(body, "name") && CastName(body["name"], "name").Success?
      && (newId in old(store.tags) || TagKeyInUse(old(store.tags), CastName(body["name"], "name").value, caller))
      ==> reply == Next(BadRequest(DuplicateMessage)) && store.tags == old(store.tags)
    ensures TruthyField(body, "name") && CastName(body["name"], "name").Success?
      && newId !in old(store.tags) && !TagKeyInUse(old(store.tags), CastName(body["name"], "name").value, caller)
      ==> (var t := Tag(CastName(body["name"], "name").value, caller, now, now);
           store.tags == old(store.tags)[newId := t]
           && reply == Json(201, Some("http://" + originalUrl + "/" + newId), TagJson(newId, t)))
  {
    if !TruthyField(body, "name") {
      return Next(MissingName);
    }
    var name := CastName(body["name"], "name");
    if name.Failure? {
      return Next(TranslateDuplicate(name.error, DuplicateMessage));
    }
    var err := store.CreateTag(newId, TagDraft(Some(name.value), Some(caller)), now);
    if err.Some? {
      return Next(TranslateDuplicate(err.value, DuplicateMessage));
    }
    reply := Json(201, Some("http://" + originalUrl + "/" + newId), TagJson(newId, store.tags[newId]));
  }

  /** PUT /api/tags/:id as written: a valid id with no tag ends in the exception, not in not-found. */
  method UpdateTagAsWritten(store: Store, id: string, body: Body, now: int) returns (reply: Reply)
    requires store.Valid()
    modifies store
    ensures store.Valid()
    ensures store.users == old(store.users) && store.notes == old(store.notes) && store.folders == old(store.folders)
    ensures !IsValidId(id) ==> reply == Next(InvalidId) && store.tags == old(store.tags)
    ensures IsValidId(id) && !TruthyField(body, "name") ==> reply == Next(MissingName) && store.tags == old(store.tags)
    ensures IsValidId(id) && TruthyField(body, "name") && CastName(body["name"], "name").Failure?
      ==> reply == Next(StoreFailure(CastFailed("name"))) && store.tags == old(store.tags)
    ensures IsValidId(id) && TruthyField(body, "name") && CastName(body["name"], "name").Success? ==>
      (var r := TagModel.RenameTag(old(store.tags), ToOid(id), CastName(body["name"], "name").value, now);
       && (r.Missing? ==> reply == Next(UndeclaredErr) && store.tags == old(store.tags))
       && (r.Refused? ==> reply == Next(BadRequest(DuplicateMessage)) && store.tags == old(store.tags))
       && (r.Changed? ==> reply == Json(200, None, TagJson(ToOid(id), r.record)) && store.tags == r.table))
  {
    if !IsValidId(id) {
      return Next(InvalidId);
    }
    if !TruthyField(body, "name") {
      return Next(MissingName);
    }
    var name := CastName(body["name"], "name");
    if name.Failure? {
      return Next(TranslateDuplicate(name.error, DuplicateMessage));
    }
    var r := store.RenameTag(ToOid(id), name.value, now);
    match r
    case Missing => reply := Next(UndeclaredErr);
    case Refused(e) => reply := Next(TranslateDuplicate(e, DuplicateMessage));
    case Changed(_, t) => reply := Json(200, None, TagJson(ToOid(id), t));
  }

  /** PUT /api/tags/:id as meant: a valid id with no tag is not found. */
  method UpdateTag(store: Store, id: string, body: Body, now: int) returns (reply: Reply)
    requires store.Valid()
    modifies store
    ensures store.Valid()
    ensures store.users == old(store.users) && store.notes == old(store.notes) && store.folders == old(store.folders)
    ensures !IsValidId(id) ==> reply == Next(InvalidId) && store.tags == old(store.tags)
    ensures IsValidId(id) && !TruthyField(body, "name") ==> reply == Next(MissingName) && store.tags == old(store.tags)
    ensures IsValidId(id) && TruthyField(body, "name") && CastName(body["name"], "name").Failure?
      ==> reply == Next(StoreFailure(CastFailed("name"))) && store.tags == old(store.tags)
    ensures IsValidId(id) && TruthyField(body, "name") && CastName(body["name"], "name").Success? ==>
      (var r := TagModel.RenameTag(old(store.tags), ToOid(id), CastName(body["name"], "name").value, now);
       && (r.Missing? ==> reply == NextRoute && store.tags == old(store.tags))
       && (r.Refused? ==> reply == Next(BadRequest(DuplicateMessage)) && store.tags == old(store.tags))
       && (r.Changed? ==> reply == Json(200, None, TagJson(ToOid(id), r.record)) && store.tags == r.table))
  {
    if !IsValidId(id) {
      return Next(InvalidId);
    }
    if !TruthyField(body, "name") {
      return Next(MissingName);
    }
    var name := CastName(body["name"], "name");
    if name.Failure? {
      return Next(TranslateDuplicate(name.error, DuplicateMessage));
    }
    var r := store.RenameTag(ToOid(id), name.value, now);
    match r
    case Missing => reply := NextRoute;
    case Refused(e) => reply := Next(TranslateDuplicate(e, DuplicateMessage));
    case Changed(_, t) => reply := Json(200, None, TagJson(ToOid(id), t));
  }

  /**
   * DELETE /api/tags/:id: the id is pulled from the tags of every note, of
   * every owner, and then the tag is removed; the reply is 204 whether or
   * not the tag existed. The pull stamps every note with `now`.
   */
  method DeleteTag(store: Store, id: string, now: int) returns (reply: Reply)
    requires store.Valid()
    modifies store
    ensures store.Valid()
    ensures store.users == old(store.users) && store.folders == old(store.folders)
    ensures !IsValidId(id) ==> reply == Next(InvalidId) && store.notes == old(store.notes) && store.tags == old(store.tags)
    ensures IsValidId(id) ==> reply == SendStatus(204)
    ensures IsValidId(id) ==> store.notes == PullTag(old(store.notes), ToOid(id), now)
    ensures IsValidId(id) ==> store.tags == old(store.tags) - {ToOid(id)}
    ensures TagRefsResolve(old(store.notes), old(store.tags)) ==> TagRefsResolve(store.notes, store.tags)
  {
    if !IsValidId(id) {
      return Next(InvalidId);
    }
    var tid := ToOid(id);
    if TagRefsResolve(store.notes, store.tags) {
      PullThenRemoveKeepsTagRefs(store.notes, store.tags, tid, now);
    }
    store.PullTagFromNotes(tid, now);
    store.RemoveTag(tid);
    reply := SendStatus(204);
  }
}
